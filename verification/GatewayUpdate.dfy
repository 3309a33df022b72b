/** The updater: release link, data directory, cold backup, and what a failure at any step leaves behind. */
module GatewayUpdate {
  import opened Options

  type Commit = string

  /** The contents of a data directory. */
  datatype Data = Data(contents: int)

  datatype Source = Public | Candidate

  datatype Phase = Queued | Updating | Succeeded | RolledBack | Failed

  datatype Status = Status(phase: Phase, requestId: string)

  datatype Metadata = Metadata(candidateCommit: Commit, previousRelease: Commit, backup: string)

  /** The last eight characters of the request id name the place displaced data goes to. */
  function FailedPath(requestId: string): string {
    if |requestId| <= 8 then requestId else requestId[|requestId| - 8..]
  }

  /** What an attempt went through, for its contract to speak of. */
  datatype Trace = Trace(backup: Option<string>, cold: Option<Data>, displaced: Option<Data>, relaunched: Option<Data>,
                         live: seq<Step>, back: seq<Step>)

  const NO_TRACE := Trace(None, None, None, None, [], [])

  /** What the updater does to the world, one call after the other; the service starts on a release and on data. */
  datatype Deed = Tell(phase: Phase) | Fetch | Build(commit: Commit) | Stop | Copy(name: string) | Switch(to: Commit)
    | Start(release: Commit, data: Option<Data>) | Answer | Note | Displace | CopyBack(name: string) | Forget

  /** A call, and whether it went through. */
  datatype Step = Step(deed: Deed, ok: bool)

  /** These deeds in this order, each after the one before went through, up to the first that failed. */
  ghost predicate Follows(steps: seq<Step>, script: seq<Deed>, ok: bool) {
    && |steps| <= |script| && (forall i :: 0 <= i < |steps| ==> steps[i].deed == script[i])
    && (forall i :: 0 <= i < |steps| - 1 ==> steps[i].ok)
    && (if ok then |steps| == |script| && (steps != [] ==> steps[|steps| - 1].ok) else steps != [] && !steps[|steps| - 1].ok)
  }

  function Last(steps: seq<Step>): Step
    requires steps != []
  {
    steps[|steps| - 1]
  }

  /** Among the calls since, one has failed. */
  ghost predicate SomeFailed(before: seq<Step>, after: seq<Step>) {
    |before| <= |after| && after[..|before|] == before && exists i :: |before| <= i < |after| && !after[i].ok
  }

  lemma FailedBetween(before: seq<Step>, start: seq<Step>, end: seq<Step>, after: seq<Step>)
    requires |before| <= |start| && start[..|before|] == before && SomeFailed(start, end)
    requires |end| <= |after| && after[..|end|] == end
    ensures SomeFailed(before, after)
  {
    var i :| |start| <= i < |end| && !end[i].ok;
    assert after[i] == after[..|end|][i];
    assert after[..|before|] == end[..|before|] == start[..|before|];
  }

  lemma FollowsOn(a: seq<Step>, s: seq<Deed>, b: seq<Step>, t: seq<Deed>, ok: bool)
    requires Follows(a, s, true) && Follows(b, t, ok)
    ensures Follows(a + b, s + t, ok)
  {
  }

  lemma FollowsShort(a: seq<Step>, s: seq<Deed>, t: seq<Deed>)
    requires Follows(a, s, false)
    ensures Follows(a, s + t, false)
  {
  }

  function AllWent(script: seq<Deed>): seq<Step> {
    seq(|script|, i requires 0 <= i < |script| => Step(script[i], true))
  }

  /**
   * A way back: the service is told to stop, and then either the script and the news of it all went through, or they
   * went on up to the first failure, after which there is nothing but word of the failure.
   */
  ghost predicate GoneBack(steps: seq<Step>, script: seq<Deed>, told: bool) {
    && steps != [] && steps[0].deed == Stop
    && if told then steps[1..] == AllWent(script + [Tell(RolledBack)])
       else exists k :: 0 <= k <= |script| && BrokenOff(steps[1..], script + [Tell(RolledBack)], k)
  }

  ghost predicate BrokenOff(steps: seq<Step>, script: seq<Deed>, k: nat) {
    && k < |script| && k < |steps| && steps[..k] == AllWent(script[..k]) && steps[k] == Step(script[k], false)
    && forall i :: k < i < |steps| ==> steps[i].deed == Tell(Failed)
  }

  lemma FollowedThrough(steps: seq<Step>, script: seq<Deed>)
    requires Follows(steps, script, true)
    ensures steps == AllWent(script)
  {
  }

  lemma Regroup(a: seq<Step>, b: seq<Step>, c: seq<Step>, d: seq<Step>)
    ensures a + b + c + d == a + (b + c + d)
  {
  }

  lemma CameBack(stopped: bool, back: seq<Step>, script: seq<Deed>)
    requires Follows(back, script, true)
    ensures GoneBack([Step(Stop, stopped)] + back + [Step(Tell(RolledBack), true)], script, true)
  {
    FollowedThrough(back, script);
    var steps := [Step(Stop, stopped)] + back + [Step(Tell(RolledBack), true)];
    assert steps[1..] == AllWent(script + [Tell(RolledBack)]);
  }

  lemma Stranded(stopped: bool, back: seq<Step>, script: seq<Deed>, news: seq<Step>, failure: Step)
    requires failure.deed == Tell(Failed)
    requires (Follows(back, script, false) && news == []) || (Follows(back, script, true) && news == [Step(Tell(RolledBack), false)])
    ensures GoneBack([Step(Stop, stopped)] + back + (news + [failure]), script, false)
  {
    var steps, whole := [Step(Stop, stopped)] + back + (news + [failure]), script + [Tell(RolledBack)];
    var k := if news == [] then |back| - 1 else |script|;
    assert steps[1..] == back + news + [failure];
    assert (back + news + [failure])[..k] == AllWent(whole[..k]);
    assert BrokenOff(steps[1..], whole, k);
  }

  lemma StillBroken(steps: seq<Step>, script: seq<Deed>, written: bool)
    requires GoneBack(steps, script, false)
    ensures GoneBack(steps + [Step(Tell(Failed), written)], script, false)
  {
    var k :| 0 <= k <= |script| && BrokenOff(steps[1..], script + [Tell(RolledBack)], k);
    var more := steps + [Step(Tell(Failed), written)];
    assert more[1..] == steps[1..] + [Step(Tell(Failed), written)];
    assert more[1..][..k] == steps[1..][..k];
    assert BrokenOff(more[1..], script + [Tell(RolledBack)], k);
  }

  lemma NewsFailed(steps: seq<Step>, script: seq<Deed>, tail: seq<Step>)
    requires Follows(steps, script, true) && forall i :: 0 <= i < |tail| ==> tail[i].deed == Tell(Failed)
    ensures BrokenOff(steps + ([Step(Tell(RolledBack), false)] + tail), script + [Tell(RolledBack)], |script|)
  {
    FollowedThrough(steps, script);
    assert (script + [Tell(RolledBack)])[..|script|] == script;
  }

  /** A rollback asked for, up to the stop. */
  function Asked(stopped: bool): seq<Step> { AllWent([Tell(Queued), Tell(Updating)]) + [Step(Stop, stopped)] }

  /** Making a release live: nothing counts as success before the service has started on it and answered. */
  function Live(target: Commit, data: Option<Data>): seq<Deed> {
    [Switch(target), Start(target, data), Answer, Note, Tell(Succeeded)]
  }

  /** Going back: the release, the displaced data, the backup in its place, the service on top, and its answer. */
  function Back(release: Commit, backup: string, data: Option<Data>): seq<Deed> {
    [Switch(release), Displace, CopyBack(backup), Start(release, data), Answer]
  }

  ghost predicate Keeps(before: map<string, Data>, after: map<string, Data>) {
    forall k :: k in before ==> k in after && after[k] == before[k]
  }

  class Host {
    var current: Commit
    var releases: map<Commit, Source>
    var data: Option<Data>
    var backups: map<string, Data>
    var displaced: map<string, Data>
    var metadata: Option<Metadata>
    var status: Status
    ghost var log: seq<Step>

    /** A running service does what it likes to the data in place. */
    method Serve()
      modifies this`data
      ensures data.Some? <==> old(data).Some?
    {
      var contents: int := *;
      if data.Some? { data := Some(Data(contents)); }
    }

    /** Stopping can fail; once it has gone through the data stands still. */
    method StopService() returns (ok: bool)
      modifies this`data, this`log
      ensures data.Some? <==> old(data).Some?
      ensures log == old(log) + [Step(Stop, ok)]
    {
      Serve();
      ok := *;
      log := log + [Step(Stop, ok)];
    }

    method StartService() returns (ok: bool, ghost relaunched: Option<Data>)
      modifies this`data, this`log
      ensures relaunched == old(data) && (data.Some? <==> old(data).Some?)
      ensures log == old(log) + [Step(Start(current, relaunched), ok)]
    {
      relaunched := data;
      Serve();
      ok := *;
      log := log + [Step(Start(current, relaunched), ok)];
    }

    method Healthy() returns (ok: bool)
      modifies this`data, this`log
      ensures data.Some? <==> old(data).Some?
      ensures log == old(log) + [Step(Answer, ok)]
    {
      Serve();
      ok := *;
      log := log + [Step(Answer, ok)];
    }

    /** The last step renames the new status into place. */
    method WriteStatus(next: Status) returns (ok: bool)
      modifies this`status, this`log
      ensures status == if ok then next else old(status)
      ensures log == old(log) + [Step(Tell(next.phase), ok)]
    {
      ok := *;
      log := log + [Step(Tell(next.phase), ok)];
      if ok { status := next; }
    }

    /** The last step renames the new link into place. */
    method SwitchCurrent(target: Commit) returns (ok: bool)
      modifies this`current, this`log
      ensures current == if ok then target else old(current)
      ensures log == old(log) + [Step(Switch(target), ok)]
    {
      ok := *;
      log := log + [Step(Switch(target), ok)];
      if ok { current := target; }
    }

    /** An existing release is reused if it came from the same source. */
    method PrepareRelease(commit: Commit, source: Source) returns (ok: bool)
      modifies this`releases, this`log
      ensures ok ==> commit in releases && releases[commit] == source
      ensures releases == old(releases) || (commit !in old(releases) && releases == old(releases)[commit := source])
      ensures log == old(log) + [Step(Build(commit), ok)]
    {
      ok := *;
      if commit in releases {
        ok := releases[commit] == source;
      } else if ok {
        releases := releases[commit := source];
      }
      log := log + [Step(Build(commit), ok)];
    }

    /** Stops the service and copies its data to a place of its own; on failure the service is started again. */
    method BackupData(name: string) returns (r: Result<string, Phase>, ghost cold: Option<Data>)
      modifies this`data, this`backups, this`log
      ensures Keeps(old(backups), backups)
      ensures r.Ok? ==> r.value == name && name !in old(backups) && data.Some? && cold == data
      ensures r.Ok? ==> backups == old(backups)[name := data.value]
      ensures r.Ok? ==> log == old(log) + [Step(Stop, true), Step(Copy(name), true)]
      // on failure the service is started again
      ensures |log| >= |old(log)| + 2 && log[..|old(log)|] == old(log)
      ensures r.Err? ==> Last(log).deed.Start? && !log[|log| - 2].ok
      ensures r.Err? ==> forall i :: |old(log)| <= i < |log| - 1 ==> log[i].deed.Stop? || log[i].deed.Copy?
    {
      cold := None;
      var stopped := StopService();
      if stopped {
        var made, copied, described := *, *, *;
        var ok := data.Some? && made && name !in backups && copied && described;
        if data.Some? && made && name !in backups {
          var partial: int := *;
          backups := backups[name := if copied then data.value else Data(partial)];
        }
        log := log + [Step(Copy(name), ok)];
        if ok { return Ok(name), data; }
      }
      var started, relaunched := StartService();
      return Err(Failed), None;
    }

    /** Never over anything that is there already. */
    method MoveDataToFailedPath(requestId: string) returns (ok: bool)
      modifies this`data, this`displaced, this`log
      ensures log == old(log) + [Step(Displace, ok)]
      ensures ok ==> old(data).Some? && data == None && FailedPath(requestId) !in old(displaced)
      ensures ok ==> displaced == old(displaced)[FailedPath(requestId) := old(data).value]
      ensures !ok ==> data == old(data) && displaced == old(displaced)
    {
      var path := FailedPath(requestId);
      var renamed := *;
      ok := data.Some? && path !in displaced && renamed;
      log := log + [Step(Displace, ok)];
      if ok {
        displaced := displaced[path := data.value];
        data := None;
      }
    }

    method CopyDataBack(backup: string) returns (ok: bool)
      requires data == None
      modifies this`data, this`log
      ensures log == old(log) + [Step(CopyBack(backup), ok)]
      ensures ok ==> backup in backups && data == Some(backups[backup])
    {
      var copied, some, contents: int := *, *, *;
      ok := copied && backup in backups;
      log := log + [Step(CopyBack(backup), ok)];
      if ok {
        data := Some(backups[backup]);
      } else if some {
        data := Some(Data(contents));
      }
    }

    /** Starts the service, and waits for it to answer. */
    method BringUp() returns (ok: bool, ghost relaunched: Option<Data>, ghost steps: seq<Step>)
      modifies this`data, this`log
      ensures relaunched == old(data) && (data.Some? <==> old(data).Some?)
      ensures Follows(steps, [Start(current, relaunched), Answer], ok) && log == old(log) + steps
    {
      ok, relaunched := StartService();
      steps := [Step(Start(current, relaunched), ok)];
      if !ok { return; }
      ok := Healthy();
      steps := steps + [Step(Answer, ok)];
    }

    /** The old release, and the old data in place of those that are there, which are set aside. */
    method SwapBack(release: Commit, backup: string, requestId: string)
      returns (ok: bool, ghost displacedData: Option<Data>, ghost steps: seq<Step>)
      modifies this`current, this`data, this`displaced, this`log
      ensures Keeps(old(displaced), displaced)
      ensures current == old(current) || current == release
      ensures ok ==> current == release && backup in backups && data == Some(backups[backup])
      ensures ok ==> displacedData.Some? && FailedPath(requestId) !in old(displaced)
      ensures ok ==> displaced == old(displaced)[FailedPath(requestId) := displacedData.value]
      ensures Follows(steps, [Switch(release), Displace, CopyBack(backup)], ok) && log == old(log) + steps
    {
      ok := SwitchCurrent(release);
      steps := [Step(Switch(release), ok)];
      displacedData := data;
      if !ok { return; }
      ok := MoveDataToFailedPath(requestId);
      steps := steps + [Step(Displace, ok)];
      if !ok { return; }
      ok := CopyDataBack(backup);
      steps := steps + [Step(CopyBack(backup), ok)];
    }

    /** Old release and old data back in place, and the service on top of them. */
    method PutBack(release: Commit, backup: string, requestId: string)
      returns (ok: bool, ghost displacedData: Option<Data>, ghost relaunched: Option<Data>, ghost stopped: bool,
               ghost steps: seq<Step>)
      modifies this`current, this`data, this`displaced, this`log
      ensures Keeps(old(displaced), displaced)
      ensures current == old(current) || current == release
      ensures ok ==> current == release && backup in backups && relaunched == Some(backups[backup])
      ensures ok ==> displacedData.Some? && FailedPath(requestId) !in old(displaced)
      ensures ok ==> displaced == old(displaced)[FailedPath(requestId) := displacedData.value]
      // whether or not the service stops, one thing after the other up to the first failure
      ensures Follows(steps, Back(release, backup, relaunched), ok) && log == old(log) + [Step(Stop, stopped)] + steps
    {
      relaunched := None;
      var down := StopService();
      stopped := down;
      ok, displacedData, steps := SwapBack(release, backup, requestId);
      ghost var script := [Switch(release), Displace, CopyBack(backup)];
      if !ok {
        FollowsShort(steps, script, [Start(release, relaunched), Answer]);
        assert script + [Start(release, relaunched), Answer] == Back(release, backup, relaunched);
        return;
      }
      ghost var swapped, up := steps, steps;
      ok, relaunched, up := BringUp();
      FollowsOn(swapped, script, up, [Start(release, relaunched), Answer], ok);
      assert script + [Start(release, relaunched), Answer] == Back(release, backup, relaunched);
      steps := swapped + up;
    }

    /** `restore`: the status says `rolled_back` only after everything is back and healthy. */
    method Restore(oldTarget: Commit, backup: string, requestId: string)
      returns (ghost displacedData: Option<Data>, ghost relaunched: Option<Data>, ghost steps: seq<Step>)
      requires status == Status(Updating, requestId)
      modifies this`current, this`data, this`displaced, this`status, this`log
      ensures Keeps(old(displaced), displaced)
      ensures current == old(current) || current == oldTarget
      ensures status.requestId == requestId && status.phase in {Updating, RolledBack, Failed}
      ensures status.phase == RolledBack ==>
        && current == oldTarget && backup in backups && relaunched == Some(backups[backup])
        && displacedData.Some? && FailedPath(requestId) !in old(displaced)
        && displaced == old(displaced)[FailedPath(requestId) := displacedData.value]
      ensures log == old(log) + steps && GoneBack(steps, Back(oldTarget, backup, relaunched), status.phase == RolledBack)
    {
      var ok;
      ghost var back, stopped;
      ok, displacedData, relaunched, stopped, back := PutBack(oldTarget, backup, requestId);
      ghost var news, word;
      ok, news, word := Report(ok, requestId);
      if ok {
        CameBack(stopped, back, Back(oldTarget, backup, relaunched));
      } else {
        Stranded(stopped, back, Back(oldTarget, backup, relaunched), news, word);
      }
      ghost var tail := if ok then news else news + [word];
      steps := [Step(Stop, stopped)] + back + tail;
      Regroup(old(log), [Step(Stop, stopped)], back, tail);
    }

    /** Word of a rollback that went through, or else of the failure. */
    method Report(restored: bool, requestId: string) returns (told: bool, ghost news: seq<Step>, ghost word: Step)
      modifies this`status, this`log
      ensures told ==> restored && status == Status(RolledBack, requestId)
      ensures !told ==> status == old(status) || status == Status(Failed, requestId)
      ensures news == if restored then [Step(Tell(RolledBack), told)] else []
      ensures !told ==> word.deed == Tell(Failed)
      ensures log == old(log) + if told then news else news + [word]
    {
      told, news, word := false, [], Step(Tell(Failed), false);
      if restored {
        told := WriteStatus(Status(RolledBack, requestId));
        news := [Step(Tell(RolledBack), told)];
      }
      if !told {
        var written := WriteStatus(Status(Failed, requestId));
        word := Step(Tell(Failed), written);
      }
    }

    /** Makes the target current, and leaves the note that lets a candidate be taken back. */
    method GoLive(target: Commit, source: Source, oldTarget: Commit, backup: string, requestId: string)
        returns (ok: bool, ghost steps: seq<Step>)
      modifies this`current, this`data, this`metadata, this`status, this`log
      ensures current == old(current) || current == target
      ensures !ok ==> status == old(status)
      ensures ok ==> current == target && status == Status(Succeeded, requestId)
      ensures ok ==> metadata == if source == Candidate then Some(Metadata(target, oldTarget, backup)) else None
      // the service has started on the target, with the data as it stood, and has answered, before anything is noted
      ensures Follows(steps, Live(target, old(data)), ok) && log == old(log) + steps
    {
      ok, steps := Launch(target);
      ghost var script := [Switch(target), Start(target, old(data)), Answer];
      assert script + [Note, Tell(Succeeded)] == Live(target, old(data));
      if !ok {
        FollowsShort(steps, script, [Note, Tell(Succeeded)]);
        return;
      }
      ghost var launched, noted := steps, steps;
      ok, noted := LeaveNote(target, source, oldTarget, backup, requestId);
      FollowsOn(launched, script, noted, [Note, Tell(Succeeded)], ok);
      steps := launched + noted;
    }

    /** The service up on another release. */
    method Launch(target: Commit) returns (ok: bool, ghost steps: seq<Step>)
      modifies this`current, this`data, this`log
      ensures current == old(current) || current == target
      ensures ok ==> current == target
      ensures Follows(steps, [Switch(target), Start(target, old(data)), Answer], ok) && log == old(log) + steps
    {
      ok := SwitchCurrent(target);
      steps := [Step(Switch(target), ok)];
      if !ok { return; }
      ghost var relaunched, up;
      ok, relaunched, up := BringUp();
      FollowsOn(steps, [Switch(target)], up, [Start(target, relaunched), Answer], ok);
      assert [Switch(target)] + [Start(target, relaunched), Answer] == [Switch(target), Start(target, relaunched), Answer];
      steps := steps + up;
    }

    /** The note, for a candidate, or none; and the news. */
    method LeaveNote(target: Commit, source: Source, oldTarget: Commit, backup: string, requestId: string)
        returns (ok: bool, ghost steps: seq<Step>)
      modifies this`metadata, this`status, this`log
      ensures status == if ok then Status(Succeeded, requestId) else old(status)
      ensures ok ==> metadata == if source == Candidate then Some(Metadata(target, oldTarget, backup)) else None
      ensures Follows(steps, [Note, Tell(Succeeded)], ok) && log == old(log) + steps
    {
      ok := *;
      log := log + [Step(Note, ok)];
      steps := [Step(Note, ok)];
      if !ok { return; }
      metadata := if source == Candidate then Some(Metadata(target, oldTarget, backup)) else None;
      ok := WriteStatus(Status(Succeeded, requestId));
      steps := steps + [Step(Tell(Succeeded), ok)];
    }

    /** Everything up to the cold backup: until then nothing has been swapped. */
    method Prepare(target: Commit, source: Source, requestId: string, stamp: string)
      returns (ok: bool, ghost cold: Option<Data>)
      modifies this`releases, this`data, this`backups, this`status, this`log
      ensures Keeps(old(backups), backups)
      ensures ok ==> status == Status(Updating, requestId) && data == cold
      ensures ok ==> stamp !in old(backups) && cold.Some? && backups == old(backups)[stamp := cold.value]
      ensures ok ==> target in releases && releases[target] == source
      ensures !ok ==> status == old(status) || status == Status(Queued, requestId) || status == Status(Updating, requestId)
      ensures ok ==> log == old(log) + AllWent([Tell(Queued), Fetch, Tell(Updating), Build(target), Stop, Copy(stamp)])
      ensures |log| >= |old(log)| && log[..|old(log)|] == old(log)
      ensures !ok ==> forall i :: |old(log)| <= i < |log| ==> !log[i].deed.Switch? && !log[i].deed.Displace?
      // it fails only when a call does
      ensures !ok ==> exists i :: |old(log)| <= i < |log| && !log[i].ok
    {
      cold := None;
      ok := WriteStatus(Status(Queued, requestId));
      if ok {
        ok := *;
        log := log + [Step(Fetch, ok)];
      }
      if ok { ok := WriteStatus(Status(Updating, requestId)); }
      if ok { ok := PrepareRelease(target, source); }
      if !ok {
        assert !log[|log| - 1].ok;
        return;
      }
      var backup;
      backup, cold := BackupData(stamp);
      ok := backup.Ok?;
      if !ok { assert !log[|log| - 2].ok; }
    }

    /**
     * `runGatewayUpdate` for an update or a candidate. `t` tells the backup that was made, the data in it, the
     * data set aside by a rollback, the data the service was restarted on, and the steps forward and back.
     */
    method Update(target: Commit, source: Source, requestId: string, stamp: string) returns (ghost t: Trace)
      modifies this
      // no backup and no displaced data is ever touched again
      ensures Keeps(old(backups), backups) && Keeps(old(displaced), displaced)
      // nothing is swapped before there is a cold backup, and then it stays
      ensures t.backup == None ==> current == old(current) && displaced == old(displaced) && metadata == old(metadata)
      ensures t.backup.Some? ==> t.backup.value == stamp && stamp !in old(backups) && t.cold.Some?
      ensures t.backup.Some? ==> backups == old(backups)[t.backup.value := t.cold.value]
      ensures current == old(current) || current == target
      // succeeded: on the target release, the data never swapped
      ensures status != old(status) && status.phase == Succeeded ==>
        && status.requestId == requestId && t.backup.Some? && current == target && displaced == old(displaced)
        && metadata == if source == Candidate then Some(Metadata(target, old(current), t.backup.value)) else None
      // rolled back: on the old release, restarted on the data of the backup, the newer data set aside
      ensures status != old(status) && status.phase == RolledBack ==>
        && status.requestId == requestId && t.backup.Some? && current == old(current)
        && t.relaunched == t.cold && t.displaced.Some? && FailedPath(requestId) !in old(displaced)
        && displaced == old(displaced)[FailedPath(requestId) := t.displaced.value]
      // after the cold backup: the steps forward, and, at the first that fails, the way back, and never success
      ensures t.backup.Some? ==>
        log == old(log) + AllWent([Tell(Queued), Fetch, Tell(Updating), Build(target), Stop, Copy(stamp)]) + t.live + t.back
      ensures t.backup.Some? && t.back == [] ==>
        status == Status(Succeeded, requestId) && Follows(t.live, Live(target, t.cold), true)
      ensures t.backup.Some? && t.back != [] ==>
        && status.phase in {RolledBack, Failed, Updating} && Follows(t.live, Live(target, t.cold), false)
        && GoneBack(t.back, Back(old(current), stamp, t.relaunched), status.phase == RolledBack)
      ensures t.backup == None ==> status == old(status) || status.phase in {Queued, Updating, Failed}
      // without a backup some call has failed
      ensures t.backup == None ==>
        |log| >= |old(log)| && log[..|old(log)|] == old(log) && exists i :: |old(log)| <= i < |log| && !log[i].ok
    {
      t := NO_TRACE;
      var oldTarget := current;
      var ok;
      ghost var cold;
      ok, cold := Prepare(target, source, requestId, stamp);
      if !ok {
        ghost var i :| |old(log)| <= i < |log| && !log[i].ok;
        var written := WriteStatus(Status(Failed, requestId));
        assert !log[i].ok;
        return;
      }
      ghost var live, back, displacedData, relaunched;
      live, back, displacedData, relaunched := SwapOver(target, source, oldTarget, stamp, requestId);
      t := Trace(Some(stamp), cold, displacedData, relaunched, live, back);
    }

    /** From the cold backup on: forward, or, when that fails, back. */
    method SwapOver(target: Commit, source: Source, oldTarget: Commit, stamp: string, requestId: string)
        returns (ghost live: seq<Step>, ghost back: seq<Step>, ghost displacedData: Option<Data>, ghost relaunched: Option<Data>)
      requires status == Status(Updating, requestId) && current == oldTarget
      modifies this`current, this`data, this`displaced, this`metadata, this`status, this`log
      ensures Keeps(old(displaced), displaced) && (current == oldTarget || current == target)
      ensures log == old(log) + live + back && status.requestId == requestId
      ensures back == [] ==>
        && status.phase == Succeeded && Follows(live, Live(target, old(data)), true)
        && current == target && displaced == old(displaced)
        && metadata == if source == Candidate then Some(Metadata(target, oldTarget, stamp)) else None
      ensures back != [] ==>
        && status.phase in {RolledBack, Failed, Updating} && Follows(live, Live(target, old(data)), false)
        && GoneBack(back, Back(oldTarget, stamp, relaunched), status.phase == RolledBack)
      ensures status.phase == RolledBack ==>
        && current == oldTarget && stamp in backups && relaunched == Some(backups[stamp]) && displacedData.Some?
        && FailedPath(requestId) !in old(displaced)
        && displaced == old(displaced)[FailedPath(requestId) := displacedData.value]
    {
      back, displacedData, relaunched := [], None, None;
      var ok;
      ok, live := GoLive(target, source, oldTarget, stamp, requestId);
      if ok { return; }
      displacedData, relaunched, back := Restore(oldTarget, stamp, requestId);
      if status.phase == Updating {
        var written := WriteStatus(Status(Failed, requestId));
        StillBroken(back, Back(oldTarget, stamp, relaunched), written);
        back := back + [Step(Tell(Failed), written)];
      }
    }

    /** The running release is the candidate asked about, and the note about it names a release and a backup there are. */
    ghost predicate CanRollBack(ifCurrentCommit: Commit)
      reads this
    {
      && current == ifCurrentCommit && current in releases && releases[current] == Candidate
      && metadata.Some? && metadata.value.candidateCommit == current
      && metadata.value.previousRelease in releases && metadata.value.backup in backups
    }

    /** `runCandidateRollback`: back to what the note says, on the data backed up then. */
    method RollBackCandidate(ifCurrentCommit: Commit, requestId: string) returns (ghost t: Trace, ghost stopped: bool)
      modifies this`current, this`data, this`displaced, this`metadata, this`status, this`log
      ensures Keeps(old(displaced), displaced)
      ensures !old(CanRollBack(ifCurrentCommit)) ==>
        current == old(current) && data == old(data) && displaced == old(displaced) && metadata == old(metadata)
      ensures status != old(status) && status.phase == RolledBack ==>
        && old(CanRollBack(ifCurrentCommit)) && status.requestId == requestId
        && current == old(metadata).value.previousRelease && t.relaunched == Some(backups[old(metadata).value.backup])
        && t.displaced.Some? && displaced == old(displaced)[FailedPath(requestId) := t.displaced.value]
        && metadata == None
      // and then the service has started on that release and that data, and has answered, before it was told
      ensures status != old(status) && status.phase == RolledBack ==>
        var note := old(metadata).value;
        && Follows(t.back, Back(note.previousRelease, note.backup, t.relaunched), true)
        && log == old(log) + Asked(stopped) + t.back + AllWent([Forget, Tell(RolledBack)])
      ensures status == old(status) || status.phase in {Queued, Updating, RolledBack, Failed}
      // taken back, unless the note does not allow it or a call has failed
      ensures old(CanRollBack(ifCurrentCommit)) ==> status == Status(RolledBack, requestId) || SomeFailed(old(log), log)
    {
      t, stopped := NO_TRACE, false;
      var ok := WriteStatus(Status(Queued, requestId));
      assert !log[|log| - 1].ok <==> !ok;
      if ok && current in releases && releases[current] == Candidate && current == ifCurrentCommit
        && metadata.Some? && metadata.value.candidateCommit == current
        && metadata.value.previousRelease in releases && metadata.value.backup in backups {
        var note := metadata.value;
        ok := WriteStatus(Status(Updating, requestId));
        assert !log[|log| - 1].ok <==> !ok;
        if ok {
          ghost var displacedData, relaunched, back, start := None, None, [], log;
          ok, displacedData, relaunched, stopped, back := TakeBack(note, requestId);
          t := Trace(Some(note.backup), None, displacedData, relaunched, [], back);
          if ok {
            assert old(log) + [Step(Tell(Queued), true)] + [Step(Tell(Updating), true)] + [Step(Stop, stopped)]
              == old(log) + Asked(stopped);
            return;
          }
          FailedBetween(old(log), start, log, log);
        }
      }
      ghost var so := log;
      var written := WriteStatus(Status(Failed, requestId));
      if old(CanRollBack(ifCurrentCommit)) { FailedBetween(old(log), old(log), so, log); }
    }

    method TakeBack(note: Metadata, requestId: string)
      returns (ok: bool, ghost displacedData: Option<Data>, ghost relaunched: Option<Data>, ghost stopped: bool,
               ghost back: seq<Step>)
      modifies this`current, this`data, this`displaced, this`metadata, this`status, this`log
      ensures Keeps(old(displaced), displaced)
      ensures !ok ==> status == old(status)
      ensures !ok ==> SomeFailed(old(log), log)
      ensures ok ==>
        && status == Status(RolledBack, requestId) && metadata == None && current == note.previousRelease
        && note.backup in backups && relaunched == Some(backups[note.backup])
        && displacedData.Some? && displaced == old(displaced)[FailedPath(requestId) := displacedData.value]
        && Follows(back, Back(note.previousRelease, note.backup, relaunched), true)
        && log == old(log) + [Step(Stop, stopped)] + back + AllWent([Forget, Tell(RolledBack)])
    {
      ok, displacedData, relaunched, stopped, back := PutBack(note.previousRelease, note.backup, requestId);
      if !ok {
        assert !log[|log| - 1].ok;
        return;
      }
      ok := *;
      log := log + [Step(Forget, ok)];
      if !ok {
        assert !log[|log| - 1].ok;
        return;
      }
      metadata := None;
      ok := WriteStatus(Status(RolledBack, requestId));
      if !ok { assert !log[|log| - 1].ok; }
    }

    /** A candidate tried and taken back: the old release runs again, on the data it was stopped with. */
    method TryCandidate(target: Commit, first: string, second: string, stamp: string)
      returns (ghost went: bool, ghost cold: Option<Data>, ghost relaunched: Option<Data>)
      requires first != second && status.requestId != first && status.requestId != second
      modifies this
      ensures Keeps(old(backups), backups) && Keeps(old(displaced), displaced)
      ensures went && status == Status(RolledBack, second) ==>
        && current == old(current) && cold.Some? && relaunched == cold
        && stamp in backups && backups[stamp] == cold.value && metadata == None
    {
      ghost var t := Update(target, Candidate, first, stamp);
      went, cold := status == Status(Succeeded, first), t.cold;
      ghost var u, stopped := RollBackCandidate(target, second);
      relaunched := u.relaunched;
    }
  }
}
