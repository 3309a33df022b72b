/** Recall sessions: one record per generation of an Agent's session, of which only the newest may be active. */
module RecallSessions {
  import opened Options

  datatype Identity = Identity(agentId: string, agentSessionId: string, generation: nat)

  datatype Cursor = Cursor(id: string, retrievalId: string, data: string)

  datatype Session = Session(identity: Identity, active: bool, delivered: seq<string>, cursors: seq<Cursor>)

  datatype Error = InvalidRequest | Frozen | Stale

  const MAX_SNAPSHOTS: nat := 16

  predicate WellFormed(id: Identity) { id.agentId != "" && id.agentSessionId != "" && id.generation >= 1 }

  predicate Siblings(a: Identity, b: Identity) { a.agentId == b.agentId && a.agentSessionId == b.agentSessionId }

  // ---------------------------------------------------------------- cursors

  function Retrievals(cursors: seq<Cursor>): seq<string> {
    seq(|cursors|, i requires 0 <= i < |cursors| => cursors[i].retrievalId)
  }

  /** `[...new Set(ids)]`: each id once, in the order of first occurrence. */
  function Unique(ids: seq<string>): seq<string> {
    if ids == [] then []
    else
      var n := |ids| - 1;
      Unique(ids[..n]) + if ids[n] in ids[..n] then [] else [ids[n]]
  }

  function LastOf(ids: seq<string>, max: nat): seq<string> {
    if |ids| <= max then ids else ids[|ids| - max..]
  }

  function Only(cursors: seq<Cursor>, retained: seq<string>): seq<Cursor> {
    if cursors == [] then []
    else
      var n := |cursors| - 1;
      Only(cursors[..n], retained) + if cursors[n].retrievalId in retained then [cursors[n]] else []
  }

  /** The cursors kept when one more is saved: those of the newest retrievals. */
  function Saved(cursors: seq<Cursor>, cursor: Cursor): seq<Cursor> {
    var appended := cursors + [cursor];
    Only(appended, LastOf(Unique(Retrievals(appended)), MAX_SNAPSHOTS))
  }

  predicate Bounded(cursors: seq<Cursor>) { |Unique(Retrievals(cursors))| <= MAX_SNAPSHOTS }

  predicate AllDifferent(ids: seq<string>) {
    ids == [] || (ids[|ids| - 1] !in ids[..|ids| - 1] && AllDifferent(ids[..|ids| - 1]))
  }

  lemma {:induction false} UniqueIds(ids: seq<string>)
    ensures forall x :: x in Unique(ids) <==> x in ids
    ensures AllDifferent(Unique(ids))
  {
    if ids != [] {
      var n := |ids| - 1;
      UniqueIds(ids[..n]);
      assert ids == ids[..n] + [ids[n]];
      var u := Unique(ids[..n]);
      assert u + [] == u && (u + [ids[n]])[..|u|] == u;
    }
  }

  lemma RetrievalsMore(cursors: seq<Cursor>, c: Cursor)
    ensures Retrievals(cursors + [c]) == Retrievals(cursors) + [c.retrievalId]
  {
  }

  lemma UniqueMore(ids: seq<string>, x: string)
    ensures Unique(ids + [x]) == Unique(ids) + if x in ids then [] else [x]
  {
    assert (ids + [x])[..|ids|] == ids;
  }

  function Restrict(ids: seq<string>, retained: seq<string>): seq<string> {
    if ids == [] then []
    else
      var n := |ids| - 1;
      Restrict(ids[..n], retained) + if ids[n] in retained then [ids[n]] else []
  }

  lemma RestrictMore(ids: seq<string>, x: string, retained: seq<string>)
    ensures Restrict(ids + [x], retained) == Restrict(ids, retained) + if x in retained then [x] else []
  {
    assert (ids + [x])[..|ids|] == ids;
  }

  lemma {:induction false} RestrictIn(ids: seq<string>, retained: seq<string>, x: string)
    ensures x in Restrict(ids, retained) <==> x in ids && x in retained
  {
    if ids != [] {
      var n := |ids| - 1;
      RestrictIn(ids[..n], retained, x);
      assert ids == ids[..n] + [ids[n]];
    }
  }

  lemma {:induction false} OnlyIds(cursors: seq<Cursor>, retained: seq<string>)
    ensures Retrievals(Only(cursors, retained)) == Restrict(Retrievals(cursors), retained)
  {
    if cursors != [] {
      var n := |cursors| - 1;
      OnlyIds(cursors[..n], retained);
      assert cursors == cursors[..n] + [cursors[n]];
      RetrievalsMore(cursors[..n], cursors[n]);
      RestrictMore(Retrievals(cursors[..n]), cursors[n].retrievalId, retained);
      RetrievalsMore(Only(cursors[..n], retained), cursors[n]);
    }
  }

  /** Keeping some ids and dropping repetitions can be done in either order. */
  lemma {:induction false} UniqueRestrict(ids: seq<string>, retained: seq<string>)
    ensures Unique(Restrict(ids, retained)) == Restrict(Unique(ids), retained)
  {
    if ids != [] {
      var n := |ids| - 1;
      var x := ids[n];
      UniqueRestrict(ids[..n], retained);
      RestrictMore(Unique(ids[..n]), x, retained);
      UniqueMore(Restrict(ids[..n], retained), x);
      RestrictIn(ids[..n], retained, x);
      NothingMore(Restrict(ids[..n], retained), Restrict(Unique(ids[..n]), retained), Unique(ids[..n]));
    }
  }

  lemma NothingMore(a: seq<string>, b: seq<string>, c: seq<string>)
    ensures a + [] == a && b + [] == b && c + [] == c
  {
  }

  lemma {:induction false} RestrictNone(ids: seq<string>, retained: seq<string>)
    requires forall x :: x in ids ==> x !in retained
    ensures Restrict(ids, retained) == []
  {
    if ids != [] { RestrictNone(ids[..|ids| - 1], retained); }
  }

  lemma {:induction false} RestrictAll(ids: seq<string>, retained: seq<string>)
    requires forall x :: x in ids ==> x in retained
    ensures Restrict(ids, retained) == ids
  {
    if ids != [] {
      var n := |ids| - 1;
      RestrictAll(ids[..n], retained);
      assert ids == ids[..n] + [ids[n]];
    }
  }

  lemma {:induction false} RestrictConcat(a: seq<string>, b: seq<string>, retained: seq<string>)
    ensures Restrict(a + b, retained) == Restrict(a, retained) + Restrict(b, retained)
  {
    if b == [] {
      assert a + b == a;
    } else {
      var n := |b| - 1;
      assert (a + b)[..|a| + n] == a + b[..n];
      RestrictConcat(a, b[..n], retained);
    }
  }

  lemma {:induction false} HalvesApart(a: seq<string>, b: seq<string>)
    requires AllDifferent(a + b)
    ensures forall x :: x in a ==> x !in b
  {
    if b != [] {
      var n := |b| - 1;
      assert (a + b)[..|a| + n] == a + b[..n];
      HalvesApart(a, b[..n]);
      assert b == b[..n] + [b[n]];
    }
  }

  lemma KeepTail(a: seq<string>, b: seq<string>)
    requires AllDifferent(a + b)
    ensures Restrict(a + b, b) == b
  {
    HalvesApart(a, b);
    RestrictNone(a, b);
    RestrictAll(b, b);
    RestrictConcat(a, b, b);
  }

  /** The retained retrievals are what remains, in order. */
  lemma RestrictLast(ids: seq<string>, max: nat)
    requires AllDifferent(ids)
    ensures Restrict(ids, LastOf(ids, max)) == LastOf(ids, max)
  {
    if |ids| <= max {
      RestrictAll(ids, ids);
    } else {
      var k := |ids| - max;
      assert ids == ids[..k] + ids[k..];
      KeepTail(ids[..k], ids[k..]);
    }
  }

  lemma SaveUnique(cursors: seq<Cursor>, cursor: Cursor)
    ensures Unique(Retrievals(Saved(cursors, cursor))) == LastOf(Unique(Retrievals(cursors + [cursor])), MAX_SNAPSHOTS)
  {
    var ids := Unique(Retrievals(cursors + [cursor]));
    UniqueIds(Retrievals(cursors + [cursor]));
    OnlyIds(cursors + [cursor], LastOf(ids, MAX_SNAPSHOTS));
    UniqueRestrict(Retrievals(cursors + [cursor]), LastOf(ids, MAX_SNAPSHOTS));
    RestrictLast(ids, MAX_SNAPSHOTS);
  }

  /**
   * Saving keeps the bound, and keeps the saved cursor: nothing is dropped while there is room, and otherwise the
   * cursors of exactly one retrieval, the one that started first.
   */
  lemma SaveRetains(cursors: seq<Cursor>, cursor: Cursor)
    requires Bounded(cursors)
    ensures Bounded(Saved(cursors, cursor))
    ensures Saved(cursors, cursor) != [] && Saved(cursors, cursor)[|Saved(cursors, cursor)| - 1] == cursor
    ensures var ids := Unique(Retrievals(cursors));
      Unique(Retrievals(Saved(cursors, cursor))) ==
        if cursor.retrievalId in ids then ids
        else if |ids| < MAX_SNAPSHOTS then ids + [cursor.retrievalId]
        else ids[1..] + [cursor.retrievalId]
  {
    SaveUnique(cursors, cursor);
    RetrievalsMore(cursors, cursor);
    UniqueMore(Retrievals(cursors), cursor.retrievalId);
    UniqueIds(Retrievals(cursors));
    var ids := Unique(Retrievals(cursors + [cursor]));
    var retained := LastOf(ids, MAX_SNAPSHOTS);
    LastKept(ids, cursor.retrievalId);
    assert (cursors + [cursor])[..|cursors|] == cursors;
  }

  lemma LastKept(ids: seq<string>, x: string)
    requires |ids| <= MAX_SNAPSHOTS + 1 && x in ids && (|ids| == MAX_SNAPSHOTS + 1 ==> ids[|ids| - 1] == x)
    ensures x in LastOf(ids, MAX_SNAPSHOTS)
  {
    if |ids| > MAX_SNAPSHOTS {
      assert LastOf(ids, MAX_SNAPSHOTS)[MAX_SNAPSHOTS - 1] == x;
    }
  }

  // --------------------------------------------------------------- sessions

  /** Among the records of one Agent session: generations increase, and only the newest may be active. */
  ghost predicate Ordered(sessions: seq<Session>) {
    forall i, j :: 0 <= i < j < |sessions| && Siblings(sessions[i].identity, sessions[j].identity) ==>
      sessions[i].identity.generation < sessions[j].identity.generation && !sessions[i].active
  }

  /** At most one active record, and it carries the highest generation; at most one record per generation. */
  lemma OneActive(sessions: seq<Session>, i: nat, j: nat)
    requires Ordered(sessions) && i < |sessions| && j < |sessions| && Siblings(sessions[i].identity, sessions[j].identity)
    ensures sessions[i].active && sessions[j].active ==> i == j
    ensures sessions[i].active ==> sessions[j].identity.generation <= sessions[i].identity.generation
    ensures sessions[i].identity == sessions[j].identity ==> i == j
  {
    if i < j {
      assert sessions[i].identity.generation < sessions[j].identity.generation;
    } else if j < i {
      assert sessions[j].identity.generation < sessions[i].identity.generation;
    }
  }

  /** Records stay, keep their identity, and once frozen stay frozen. */
  ghost predicate Evolves(before: seq<Session>, after: seq<Session>) {
    && |before| <= |after|
    && forall i :: 0 <= i < |before| ==>
         after[i].identity == before[i].identity && (after[i].active ==> before[i].active)
  }

  lemma SameShape(sessions: seq<Session>, at: nat, s: Session)
    requires at < |sessions| && s.identity == sessions[at].identity && s.active == sessions[at].active
    ensures Ordered(sessions) ==> Ordered(sessions[at := s])
    ensures Evolves(sessions, sessions[at := s])
  {
  }

  function Freeze(s: Session): Session { s.(active := false) }

  function FreezeSiblings(sessions: seq<Session>, id: Identity): seq<Session> {
    seq(|sessions|, i requires 0 <= i < |sessions| =>
      if Siblings(sessions[i].identity, id) then Freeze(sessions[i]) else sessions[i])
  }

  class RecallState {
    var sessions: seq<Session>

    ghost predicate Valid()
      reads this
    {
      && Ordered(sessions)
      && (forall i :: 0 <= i < |sessions| ==> WellFormed(sessions[i].identity))
      && forall i :: 0 <= i < |sessions| ==> Bounded(sessions[i].cursors)
    }

    constructor ()
      ensures Valid() && sessions == []
    {
      sessions := [];
    }

    /** `currentSession`: the last record of exactly this generation. */
    method CurrentSession(id: Identity) returns (at: Option<nat>)
      ensures at.Some? ==> at.value < |sessions| && sessions[at.value].identity == id
      ensures at == None ==> forall i :: 0 <= i < |sessions| ==> sessions[i].identity != id
    {
      var i := |sessions|;
      while i > 0
        invariant 0 <= i <= |sessions|
        invariant forall j :: i <= j < |sessions| ==> sessions[j].identity != id
      {
        i := i - 1;
        if sessions[i].identity == id { return Some(i); }
      }
      return None;
    }

    /** `findSession`: only an active record will do. */
    method FindSession(id: Identity) returns (r: Result<nat, Error>)
      requires Valid()
      ensures r.Ok? <==> exists i :: 0 <= i < |sessions| && sessions[i].identity == id && sessions[i].active
      ensures r == Err(InvalidRequest) <==> id.agentId == "" || id.agentSessionId == "" || id.generation <= 0
      ensures r != Err(Stale)
      ensures r.Ok? ==> r.value < |sessions| && sessions[r.value].identity == id && sessions[r.value].active
    {
      if !WellFormed(id) { return Err(InvalidRequest); }
      var at := CurrentSession(id);
      if at == None { return Err(Frozen); }
      if !sessions[at.value].active {
        forall i | 0 <= i < |sessions| && sessions[i].identity == id ensures i == at.value { OneActive(sessions, i, at.value); }
        return Err(Frozen);
      }
      return Ok(at.value);
    }

    method LatestGeneration(id: Identity) returns (latest: nat)
      ensures forall i :: 0 <= i < |sessions| && Siblings(sessions[i].identity, id) ==> sessions[i].identity.generation <= latest
      ensures latest == 0 || exists i ::
        0 <= i < |sessions| && Siblings(sessions[i].identity, id) && sessions[i].identity.generation == latest
    {
      latest := 0;
      for i := 0 to |sessions|
        invariant forall j :: 0 <= j < i && Siblings(sessions[j].identity, id) ==> sessions[j].identity.generation <= latest
        invariant latest == 0 || exists j :: 0 <= j < i && Siblings(sessions[j].identity, id) && sessions[j].identity.generation == latest
      {
        if Siblings(sessions[i].identity, id) && sessions[i].identity.generation > latest {
          latest := sessions[i].identity.generation;
        }
      }
    }

    method FreezeActive(id: Identity)
      modifies this
      ensures sessions == FreezeSiblings(old(sessions), id)
    {
      var all := sessions;
      for i := 0 to |all|
        invariant |sessions| == |all|
        invariant forall j :: 0 <= j < |all| ==> sessions[j] == if j < i then FreezeSiblings(all, id)[j] else all[j]
      {
        if Siblings(all[i].identity, id) && all[i].active { sessions := sessions[i := Freeze(all[i])]; }
      }
    }

    /** The active record of this generation, opened if the generation is new; older ones freeze. */
    method EnsureSession(id: Identity) returns (r: Result<nat, Error>)
      requires Valid()
      modifies this
      ensures Valid() && Evolves(old(sessions), sessions)
      ensures r.Ok? ==> r.value < |sessions| && sessions[r.value].identity == id && sessions[r.value].active
      ensures r.Err? ==> sessions == old(sessions)
      ensures r == Err(InvalidRequest) <==> id.agentId == "" || id.agentSessionId == "" || id.generation <= 0
      ensures r == Err(Frozen) <==> exists i :: 0 <= i < |old(sessions)| && old(sessions)[i].identity == id && !old(sessions)[i].active
      ensures r == Err(Stale) <==>
        r != Err(InvalidRequest) && (forall i :: 0 <= i < |old(sessions)| ==> old(sessions)[i].identity != id)
        && exists i :: 0 <= i < |old(sessions)| && Siblings(old(sessions)[i].identity, id)
                       && old(sessions)[i].identity.generation > id.generation
      ensures r.Ok? && r.value < |old(sessions)| ==> sessions == old(sessions)
      ensures r.Ok? && r.value >= |old(sessions)| ==>
        sessions == FreezeSiblings(old(sessions), id) + [Session(id, true, [], [])]
    {
      if !WellFormed(id) { return Err(InvalidRequest); }
      var at := CurrentSession(id);
      if at.Some? {
        return if sessions[at.value].active then Ok(at.value) else Err(Frozen);
      }
      var latest := LatestGeneration(id);
      if latest > id.generation { return Err(Stale); }
      assert forall i :: 0 <= i < |sessions| && Siblings(sessions[i].identity, id) ==> sessions[i].identity.generation < id.generation;
      FreezeOrdered(sessions, id);
      FreezeActive(id);
      sessions := sessions + [Session(id, true, [], [])];
      return Ok(|sessions| - 1);
    }

    /** Freezes the record of this generation, if it is active. */
    method ResetSession(id: Identity) returns (r: Result<bool, Error>)
      requires Valid()
      modifies this
      ensures Valid() && Evolves(old(sessions), sessions) && |sessions| == |old(sessions)|
      ensures forall i :: 0 <= i < |sessions| ==>
        sessions[i] == if old(sessions)[i].identity == id then Freeze(old(sessions)[i]) else old(sessions)[i]
      ensures r == if id.agentId == "" || id.agentSessionId == "" || id.generation <= 0 then Err(InvalidRequest) else Ok(true)
    {
      if !WellFormed(id) { return Err(InvalidRequest); }
      var at := CurrentSession(id);
      if at.Some? {
        forall i | 0 <= i < |sessions| && sessions[i].identity == id ensures i == at.value { OneActive(sessions, i, at.value); }
        sessions := sessions[at.value := Freeze(sessions[at.value])];
      }
      return Ok(true);
    }

    method SaveCursor(at: nat, cursor: Cursor)
      requires Valid() && at < |sessions|
      modifies this
      ensures Valid() && Evolves(old(sessions), sessions)
      ensures sessions == old(sessions)[at := old(sessions)[at].(cursors := Saved(old(sessions)[at].cursors, cursor))]
      ensures sessions[at].cursors != [] && sessions[at].cursors[|sessions[at].cursors| - 1] == cursor
    {
      var s := sessions[at];
      SaveRetains(s.cursors, cursor);
      var appended := s.cursors + [cursor];
      var ids := UniqueIdsOf(Retrievals(appended));
      var cursors := OnlyOf(appended, LastOf(ids, MAX_SNAPSHOTS));
      SameShape(sessions, at, s.(cursors := cursors));
      sessions := sessions[at := s.(cursors := cursors)];
    }

    /** Adds to what the caller knows to be delivered; what it does not know of is kept only if it is added again. */
    method AddDelivered(at: nat, known: seq<string>, slugs: seq<string>)
      requires Valid() && at < |sessions|
      modifies this
      ensures Valid() && Evolves(old(sessions), sessions)
      ensures sessions == old(sessions)[at := old(sessions)[at].(delivered := Unique(known + slugs))]
      ensures forall slug :: slug in sessions[at].delivered <==> slug in known || slug in slugs
    {
      UniqueIds(known + slugs);
      var delivered := UniqueIdsOf(known + slugs);
      SameShape(sessions, at, sessions[at].(delivered := delivered));
      sessions := sessions[at := sessions[at].(delivered := delivered)];
    }

    /** Any sequence of requests: records only ever evolve, so no frozen generation is active again. */
    method Serve(rounds: nat)
      requires Valid()
      modifies this
      ensures Valid() && Evolves(old(sessions), sessions)
    {
      for n := 0 to rounds
        invariant Valid() && Evolves(old(sessions), sessions)
      {
        var request, id, at: nat, cursor: Cursor, known: seq<string>, slugs: seq<string> := *, *, *, *, *, *;
        if request == 0 {
          var r := EnsureSession(id);
        } else if request == 1 {
          var r := ResetSession(id);
        } else if request == 2 && at < |sessions| {
          SaveCursor(at, cursor);
        } else if at < |sessions| {
          AddDelivered(at, known, slugs);
        }
      }
    }
  }

  method UniqueIdsOf(ids: seq<string>) returns (unique: seq<string>)
    ensures unique == Unique(ids)
  {
    unique := [];
    for i := 0 to |ids|
      invariant unique == Unique(ids[..i])
    {
      assert ids[..i + 1] == ids[..i] + [ids[i]];
      UniqueMore(ids[..i], ids[i]);
      UniqueIds(ids[..i]);
      if ids[i] !in unique { unique := unique + [ids[i]]; }
    }
    assert ids[..|ids|] == ids;
  }

  method OnlyOf(cursors: seq<Cursor>, retained: seq<string>) returns (kept: seq<Cursor>)
    ensures kept == Only(cursors, retained)
  {
    kept := [];
    for i := 0 to |cursors|
      invariant kept == Only(cursors[..i], retained)
    {
      assert cursors[..i + 1][..i] == cursors[..i];
      if cursors[i].retrievalId in retained { kept := kept + [cursors[i]]; }
    }
    assert cursors[..|cursors|] == cursors;
  }

  lemma FreezeOrdered(sessions: seq<Session>, id: Identity)
    requires Ordered(sessions)
    requires forall i :: 0 <= i < |sessions| && Siblings(sessions[i].identity, id) ==> sessions[i].identity.generation < id.generation
    ensures Ordered(FreezeSiblings(sessions, id) + [Session(id, true, [], [])])
  {
    var after := FreezeSiblings(sessions, id) + [Session(id, true, [], [])];
    forall i, j | 0 <= i < j < |after| && Siblings(after[i].identity, after[j].identity)
      ensures after[i].identity.generation < after[j].identity.generation && !after[i].active
    {
      if j < |sessions| { assert Siblings(sessions[i].identity, sessions[j].identity); }
    }
  }
}
