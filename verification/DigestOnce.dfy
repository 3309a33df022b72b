/** When digested ranges are apart, and when no message is digested twice: both conditions are exact. */
module DigestOnce {
  import opened DigestJobs
  import opened DigestRules

  // -------------------------------------------------------------- ranges apart

  /** Ranges never change. */
  ghost predicate SameRanges(a: seq<Job>, b: seq<Job>) {
    && |a| == |b|
    && forall i :: 0 <= i < |a| ==> a[i].first == b[i].first && a[i].last == b[i].last && a[i].incremental == b[i].incremental
  }

  lemma FewerLive(a: seq<Job>, b: seq<Job>, ordered: bool)
    requires SameRanges(a, b) && LiveApart(a, ordered)
    requires forall i :: 0 <= i < |a| && Live(b[i]) ==> Live(a[i])
    ensures LiveApart(b, ordered)
  {
  }

  lemma EnqueueApart(s: State, job: Job, window: bool, ordered: bool)
    requires Sound(s) && LiveApart(s.jobs, ordered) && Enabled(s, Enqueue(job, window))
    ensures LiveApart(s.jobs + [job], ordered) <==> Free(s, Enqueue(job, window), ordered)
  {
    var jobs, n := s.jobs + [job], |s.jobs|;
    if window {
      forall k | 0 <= k < n && Live(s.jobs[k]) ensures Clear(s.jobs[k], job, ordered) {
        assert Digested(s.jobs[k]) && !Past(s.jobs, job.first);
      }
    }
    if LiveApart(jobs, ordered) && job.incremental {
      forall k | 0 <= k < n && Live(s.jobs[k]) ensures Clear(s.jobs[k], job, ordered) {
        assert Live(jobs[k]) && Live(jobs[n]);
      }
    }
  }

  lemma RetryApart(jobs: seq<Job>, i: nat, ordered: bool)
    requires LiveApart(jobs, ordered) && i < |jobs| && jobs[i].status in {Failed, Cancelled}
    ensures LiveApart(jobs[i := jobs[i].(status := Queued)], ordered) <==> (jobs[i].incremental ==> Fits(jobs, i, ordered))
  {
    var after := jobs[i := jobs[i].(status := Queued)];
    if LiveApart(after, ordered) && jobs[i].incremental {
      forall k | 0 <= k < i && Live(jobs[k]) ensures Clear(jobs[k], jobs[i], ordered) {
        assert Live(after[k]) && Live(after[i]);
      }
      forall k | i < k < |jobs| && Live(jobs[k]) ensures Clear(jobs[i], jobs[k], ordered) {
        assert Live(after[i]) && Live(after[k]);
      }
    }
  }

  /** Live ranges stay apart exactly when the action is free. */
  lemma ApartExact(s: State, a: Action, ordered: bool)
    requires Sound(s) && LiveApart(s.jobs, ordered) && Enabled(s, a)
    ensures LiveApart(Next(s, a).jobs, ordered) <==> Free(s, a, ordered)
  {
    match a
    case Enqueue(job, window) => EnqueueApart(s, job, window, ordered);
    case Retry(i) => RetryApart(s.jobs, i, ordered);
    case _ => FewerLive(s.jobs, Next(s, a).jobs, ordered);
  }

  lemma {:induction false} SettlingApart(s: State, actions: seq<Action>, t: State, ordered: bool)
    requires Sound(s) && LiveApart(s.jobs, ordered) && Run(s, actions, t, SETTLING_ONLY)
    ensures Sound(t) && LiveApart(t.jobs, ordered)
  {
    if actions != [] {
      var n := |actions| - 1;
      var u := RunLast(s, actions, t, SETTLING_ONLY);
      SettlingApart(s, actions[..n], u, ordered);
      SoundKept(u, actions[n]);
      ApartExact(u, actions[n], ordered);
    }
  }

  /** Live ranges apart are exactly what it takes. */
  lemma ApartMeans(s: State, ordered: bool)
    requires Sound(s)
    ensures LiveApart(s.jobs, ordered) <==> EndsApart(s, ordered)
  {
    if LiveApart(s.jobs, ordered) {
      forall actions, t | Run(s, actions, t, SETTLING_ONLY) ensures DigestedApart(t.jobs, ordered) {
        SettlingApart(s, actions, t, ordered);
      }
    }
    if EndsApart(s, ordered) {
      var actions, t := Settle(s, _ => true);
      forall i, j | 0 <= i < j < |s.jobs| && Live(s.jobs[i]) && Live(s.jobs[j])
        ensures Clear(s.jobs[i], s.jobs[j], ordered)
      {
        assert Digested(t.jobs[i]) && Digested(t.jobs[j]);
      }
    }
  }

  /**
   * The condition on a retry, or on an incremental range of the caller's, is exact: with it no outcome of the jobs
   * under way makes two digested ranges meet (or come out of order), and without it some outcome does.
   */
  lemma FreeMeans(s: State, a: Action, ordered: bool)
    requires Sound(s) && LiveApart(s.jobs, ordered) && Enabled(s, a)
    ensures Free(s, a, ordered) <==> EndsApart(Next(s, a), ordered)
  {
    SoundKept(s, a);
    ApartExact(s, a, ordered);
    ApartMeans(Next(s, a), ordered);
  }

  // ------------------------------------------------------- messages taken once

  /** Live jobs that still are what they were, and take what they took. */
  lemma SameTakes(s: State, t: State)
    requires TakesApart(s) && |t.jobs| == |s.jobs|
    requires forall i :: 0 <= i < |s.jobs| && Live(t.jobs[i]) ==>
      Live(s.jobs[i]) && Takes(t, t.jobs[i]) == Takes(s, s.jobs[i])
    ensures TakesApart(t)
  {
  }

  lemma SettlingTakes(s: State, a: Action, i: nat)
    requires Sound(s) && Enabled(s, a) && (Settling(a) || a.Arrive? || a.Cancel?) && i < |s.jobs|
    requires Live(Next(s, a).jobs[i])
    ensures Live(s.jobs[i]) && Takes(Next(s, a), Next(s, a).jobs[i]) == Takes(s, s.jobs[i])
  {
  }

  lemma CompleteTakes(s: State, n: nat, i: nat)
    requires Sound(s) && n in s.pending && i < |s.jobs| && Live(s.jobs[i])
    ensures n !in Takes(s, s.jobs[i])
    ensures Takes(Next(s, Complete(n)), s.jobs[i]) == Takes(s, s.jobs[i]) + if Wants(s.jobs[i], n) then {n} else {}
  {
    TakenInRange(s, i, n);
  }

  lemma CompleteOnce(s: State, n: nat)
    requires Sound(s) && TakesApart(s) && n in s.pending
    ensures TakesApart(Next(s, Complete(n))) <==> Once(s, Complete(n))
  {
    var t := Next(s, Complete(n));
    forall i | 0 <= i < |s.jobs| && Live(s.jobs[i])
      ensures n !in Takes(s, s.jobs[i])
      ensures Takes(t, t.jobs[i]) == Takes(s, s.jobs[i]) + if Wants(s.jobs[i], n) then {n} else {}
    {
      CompleteTakes(s, n, i);
    }
    if TakesApart(t) {
      forall i, j | 0 <= i < j < |s.jobs| && Wants(s.jobs[i], n) ensures !Wants(s.jobs[j], n) {
        assert n in Takes(t, t.jobs[i]);
      }
    }
  }

  /** One job becomes live, or takes something else. */
  lemma OneTakes(s: State, t: State, i: nat)
    requires TakesApart(s) && i < |t.jobs| && Live(t.jobs[i]) && |t.jobs| >= |s.jobs|
    requires forall k :: 0 <= k < |t.jobs| && k != i ==>
      k < |s.jobs| && (Live(t.jobs[k]) <==> Live(s.jobs[k])) && (Live(t.jobs[k]) ==> Takes(t, t.jobs[k]) == Takes(s, s.jobs[k]))
    ensures TakesApart(t) <==> Untaken(s, Takes(t, t.jobs[i]), i)
  {
    if TakesApart(t) {
      forall k | 0 <= k < |s.jobs| && k != i && Live(s.jobs[k]) ensures Takes(s, s.jobs[k]) !! Takes(t, t.jobs[i]) {
        assert Live(t.jobs[k]);
      }
    }
  }

  lemma EnqueueOnce(s: State, job: Job, window: bool)
    requires Sound(s) && TakesApart(s) && Enabled(s, Enqueue(job, window))
    ensures TakesApart(Next(s, Enqueue(job, window))) <==> Once(s, Enqueue(job, window))
  {
    var t, n := Next(s, Enqueue(job, window)), |s.jobs|;
    if job.incremental {
      assert t.jobs[n] == job && Takes(t, job) == RangeOf(s, job);
      OneTakes(s, t, n);
      if window {
        forall k | 0 <= k < n && Live(s.jobs[k]) ensures Takes(s, s.jobs[k]) !! RangeOf(s, job) {
          assert Digested(s.jobs[k]) && !Past(s.jobs, job.first);
        }
      }
    } else {
      assert forall k :: 0 <= k < |t.jobs| && Live(t.jobs[k]) ==> k < n && Takes(t, t.jobs[k]) == Takes(s, s.jobs[k]);
    }
  }

  lemma RetryOnce(s: State, i: nat)
    requires Sound(s) && TakesApart(s) && Enabled(s, Retry(i))
    ensures TakesApart(Next(s, Retry(i))) <==> Once(s, Retry(i))
  {
    var t := Next(s, Retry(i));
    if s.jobs[i].incremental { OneTakes(s, t, i); } else { SameTakes(s, t); }
  }

  lemma RestartOnce(s: State)
    requires Sound(s) && TakesApart(s)
    ensures TakesApart(Next(s, Restart)) <==> Once(s, Restart)
  {
    var t := Next(s, Restart);
    forall i | 0 <= i < |s.jobs|
      ensures Live(t.jobs[i]) <==> Live(s.jobs[i])
      ensures !(s.jobs[i].status == Running && s.jobs[i].input.Read?) ==> Takes(t, t.jobs[i]) == Takes(s, s.jobs[i])
    {
      assert t.jobs[i] == Requeued(s.jobs[i]);
    }
    if exists i :: 0 <= i < |s.jobs| && s.jobs[i].incremental && s.jobs[i].status == Running && s.jobs[i].input.Read? {
      var i :| 0 <= i < |s.jobs| && s.jobs[i].incremental && s.jobs[i].status == Running && s.jobs[i].input.Read?;
      OneTakes(s, t, i);
    } else {
      SameTakes(s, t);
    }
  }

  /** Whatever the step: what live jobs take stays apart exactly when the step is one of these. */
  lemma TakesExact(s: State, a: Action)
    requires Sound(s) && TakesApart(s) && Enabled(s, a)
    ensures TakesApart(Next(s, a)) <==> Once(s, a)
  {
    match a
    case Complete(n) => CompleteOnce(s, n);
    case Enqueue(job, window) => EnqueueOnce(s, job, window);
    case Retry(i) => RetryOnce(s, i);
    case Restart => RestartOnce(s);
    case _ =>
      var t := Next(s, a);
      forall i | 0 <= i < |s.jobs| && Live(t.jobs[i])
        ensures Live(s.jobs[i]) && Takes(t, t.jobs[i]) == Takes(s, s.jobs[i])
      {
        SettlingTakes(s, a, i);
      }
      SameTakes(s, t);
  }

  lemma {:induction false} SettlingOnce(s: State, actions: seq<Action>, t: State)
    requires Sound(s) && TakesApart(s) && Run(s, actions, t, SETTLING_ONLY)
    ensures Sound(t) && TakesApart(t)
  {
    if actions != [] {
      var n := |actions| - 1;
      var u := RunLast(s, actions, t, SETTLING_ONLY);
      SettlingOnce(s, actions[..n], u);
      SoundKept(u, actions[n]);
      TakesExact(u, actions[n]);
    }
  }

  lemma TakenOnce(s: State, i: nat, j: nat, n: nat)
    requires Sound(s) && TakesApart(s) && TakenBy(s, i, n) && TakenBy(s, j, n)
    ensures i == j
  {
    assert n in Takes(s, s.jobs[i]) && n in Takes(s, s.jobs[j]);
  }

  /** Takes apart are exactly what it takes. */
  lemma TakesMean(s: State)
    requires Sound(s)
    ensures TakesApart(s) <==> EndsOnce(s)
  {
    if TakesApart(s) {
      forall actions, t, i, j, n | Run(s, actions, t, SETTLING_ONLY) && TakenBy(t, i, n) && TakenBy(t, j, n) ensures i == j {
        SettlingOnce(s, actions, t);
        TakenOnce(t, i, j, n);
      }
    }
    if EndsOnce(s) {
      var wins: nat -> bool := _ => true;
      var actions, t := Settle(s, wins);
      forall i, j, n | 0 <= i < j < |s.jobs| && Live(s.jobs[i]) && Live(s.jobs[j]) && n in Takes(s, s.jobs[i])
        ensures n !in Takes(s, s.jobs[j])
      {
        if n in Takes(s, s.jobs[j]) {
          assert t.jobs[i] == Outcome(s, i, wins) && t.jobs[j] == Outcome(s, j, wins);
          assert TakenBy(t, i, n) && TakenBy(t, j, n);
        }
      }
    }
  }

  /**
   * The condition is exact: with it no outcome of the jobs under way digests a message twice, and without it some
   * outcome does. It counts what will be taken, so a retry with stored proposals may overlap ranges without harm.
   */
  lemma OnceMeans(s: State, a: Action)
    requires Sound(s) && TakesApart(s) && Enabled(s, a)
    ensures Once(s, a) <==> EndsOnce(Next(s, a))
  {
    SoundKept(s, a);
    TakesExact(s, a);
    TakesMean(Next(s, a));
  }

  /** Ranges apart are enough for that. */
  lemma ApartTakesApart(s: State)
    requires Sound(s) && LiveApart(s.jobs, false)
    ensures TakesApart(s)
  {
    forall i, j, n | 0 <= i < j < |s.jobs| && Live(s.jobs[i]) && Live(s.jobs[j]) && n in Takes(s, s.jobs[i])
      ensures n !in Takes(s, s.jobs[j])
    {
      TakesInRange(s, i, n);
      TakesInRange(s, j, n);
      assert Clear(s.jobs[i], s.jobs[j], false);
    }
  }
}
