/** What becomes of each memory when accepted proposals have been carried out. */
module DreamOutcome {
  import opened Options
  import opened MemoryRecords
  import opened MemoryDream
  import opened DreamPlan
  import opened DreamOperations

  /** The fields the proposal gives are as it gives them; all else is as it was, but for the time of the update. */
  ghost predicate Rewritten(p: Proposal, before: Stored, after: Stored)
    requires p.Rewrite?
  {
    && Asked(p.kind, before.kind, after.kind) && Asked(p.description, before.description, after.description)
    && Asked(p.content, before.content, after.content)
    && after.sources == before.sources && after.stains == before.stains && after.status == before.status
    && after.agentId == before.agentId && after.createdAt == before.createdAt && after.updatedAt >= before.updatedAt
  }

  /** Archived, and otherwise as it was. */
  ghost predicate Retired(before: Stored, after: Stored) {
    && after.status == Status.Archived
    && after == before.(status := Status.Archived, updatedAt := after.updatedAt) && after.updatedAt >= before.updatedAt
  }

  /** The merged fields, and every source of every member once; active, and otherwise the target as it was. */
  ghost predicate Merged(p: Proposal, snapshot: Snapshot, after: Stored)
    requires p.Merge? && p.target in snapshot && forall s :: s in p.sourceSlugs ==> s in snapshot
  {
    var before := snapshot[p.target];
    && after.kind == p.newKind && after.description == p.newDescription && after.content == p.newContent
    && after.status == Active && after.stains == before.stains
    && after.agentId == before.agentId && after.createdAt == before.createdAt && after.updatedAt >= before.updatedAt
    && (forall s, x :: s in p.sourceSlugs && x in snapshot[s].sources ==> SourceKey(x) in KeySet(after.sources))
    && (forall x :: x in after.sources ==>
          exists s, y :: s in p.sourceSlugs && y in snapshot[s].sources && SourceKey(y) == SourceKey(x))
    && AllUnlike(SourceKeys(after.sources))
  }

  /** What a proposal wants of a memory it writes. */
  ghost predicate Wanted(p: Proposal, slug: Slug, snapshot: Snapshot, after: Stored)
    requires slug in Writes(p) && slug in snapshot && (p.Merge? ==> forall s :: s in p.sourceSlugs ==> s in snapshot)
  {
    match p
    case Keep(_, _) => true
    case Rewrite(_, _, _, _, _) => Rewritten(p, snapshot[slug], after)
    case Retire(_, _, _) => Retired(snapshot[slug], after)
    case Merge(target, _, _, _, _, _, _) =>
      if slug == target then Merged(p, snapshot, after) else Retired(snapshot[slug], after)
  }

  // -------------------------------------------------------- sources of a merge

  lemma {:induction false} InMemberSources(slugs: seq<Slug>, snapshot: Snapshot, x: Source)
    requires forall s :: s in slugs ==> s in snapshot
    ensures x in MemberSources(slugs, snapshot) <==> exists s :: s in slugs && x in snapshot[s].sources
  {
    if slugs != [] {
      var n := |slugs| - 1;
      InMemberSources(slugs[..n], snapshot, x);
      assert slugs == slugs[..n] + [slugs[n]];
    }
  }

  ghost predicate AllUnlike(s: seq<string>) { forall i, j :: 0 <= i < j < |s| ==> s[i] != s[j] }

  lemma OnceCarries(s: seq<string>, t: seq<string>)
    requires multiset(s) == multiset(t) && AllUnlike(t)
    ensures AllUnlike(s) && forall k :: k in s <==> k in t
  {
    OnceEach(t);
    TwiceSeen(s);
    forall k ensures k in s <==> k in t { assert k in multiset(s) <==> k in multiset(t); }
  }

  /** Lists with the same keys, the keys of the second all different: the same goes for the first. */
  lemma KeysCarry(a: seq<Source>, b: seq<Source>)
    requires SameSources(a, b) && AllUnlike(SourceKeys(b))
    ensures KeySet(a) == KeySet(b) && AllUnlike(SourceKeys(a))
  {
    OnceCarries(SourceKeys(a), SourceKeys(b));
    KeysOf(a);
    KeysOf(b);
  }

  lemma KeysOf(a: seq<Source>)
    ensures forall k :: k in KeySet(a) <==> k in SourceKeys(a)
  {
    forall k ensures k in KeySet(a) <==> k in SourceKeys(a) {
      if k in KeySet(a) {
        var x :| x in a && SourceKey(x) == k;
        var i :| 0 <= i < |a| && a[i] == x;
        assert SourceKeys(a)[i] == k;
      }
      if k in SourceKeys(a) {
        var i :| 0 <= i < |a| && SourceKeys(a)[i] == k;
        assert a[i] in a;
      }
    }
  }

  lemma {:induction false} OnceEach(s: seq<string>)
    requires AllUnlike(s)
    ensures forall k :: multiset(s)[k] <= 1
  {
    if s != [] {
      var n := |s| - 1;
      OnceEach(s[..n]);
      assert s == s[..n] + [s[n]];
      assert s[n] !in s[..n];
    }
  }

  lemma TwiceSeen(s: seq<string>)
    ensures (forall k :: multiset(s)[k] <= 1) ==> AllUnlike(s)
  {
    forall i, j | 0 <= i < j < |s| && s[i] == s[j] ensures multiset(s)[s[i]] >= 2 {
      assert s == s[..j] + [s[j]] + s[j + 1..];
      assert s[i] in s[..j];
    }
  }

  lemma SourcesMerged(p: Proposal, snapshot: Snapshot, after: Stored)
    requires p.Merge? && p.target in snapshot && (forall s :: s in p.sourceSlugs ==> s in snapshot)
    requires SameSources(after.sources, Dedup(MemberSources(p.sourceSlugs, snapshot)))
    ensures forall s, x :: s in p.sourceSlugs && x in snapshot[s].sources ==> SourceKey(x) in KeySet(after.sources)
    ensures forall x :: x in after.sources ==>
              exists s, y :: s in p.sourceSlugs && y in snapshot[s].sources && SourceKey(y) == SourceKey(x)
    ensures AllUnlike(SourceKeys(after.sources))
  {
    var all := MemberSources(p.sourceSlugs, snapshot);
    DedupUnion(all);
    KeysCarry(after.sources, Dedup(all));
    forall s, x | s in p.sourceSlugs && x in snapshot[s].sources ensures SourceKey(x) in KeySet(after.sources) {
      InMemberSources(p.sourceSlugs, snapshot, x);
      assert SourceKey(x) in KeySet(all);
    }
    forall x | x in after.sources
      ensures exists s, y :: s in p.sourceSlugs && y in snapshot[s].sources && SourceKey(y) == SourceKey(x)
    {
      assert SourceKey(x) in KeySet(all);
      var y :| y in all && SourceKey(y) == SourceKey(x);
      InMemberSources(p.sourceSlugs, snapshot, y);
    }
  }

  // ----------------------------------------------------------- one operation

  /** The operation has been carried out on the frozen record, or the record needed nothing. */
  ghost predicate CarriedOut(item: Planned, before: Stored, after: Stored)
    requires item.operation.change.Update? || item.operation.change.Archive?
  {
    || (Reached(Some(before), item) && after == before)
    || (exists now :: Revised(before, after, item.operation.change, now))
  }

  lemma RewriteWanted(agent: Agent, id: string, p: Proposal, snapshot: Snapshot, c: Context, after: Stored)
    requires p.Rewrite? && Good(p, snapshot, c)
    requires CarriedOut(RewriteOp(agent, id, p), snapshot[p.target], after)
    ensures Rewritten(p, snapshot[p.target], after)
  {
  }

  lemma ArchiveWanted(agent: Agent, id: string, suffix: string, slug: Slug, version: Version, merge: bool, before: Stored,
        after: Stored)
    requires CarriedOut(ArchiveOp(agent, id, suffix, slug, version, merge), before, after)
    ensures Retired(before, after)
  {
  }

  lemma MergeWanted(agent: Agent, id: string, p: Proposal, snapshot: Snapshot, c: Context, after: Stored)
    requires p.Merge? && Good(p, snapshot, c) && forall s :: s in p.sourceSlugs ==> s in snapshot
    requires CarriedOut(MergeOp(agent, id, p, Dedup(MemberSources(p.sourceSlugs, snapshot))), snapshot[p.target], after)
    ensures Merged(p, snapshot, after)
  {
    assert Member(p, p.target, snapshot);
    SourcesMerged(p, snapshot, after);
  }

  /** The operation is the proposal's, on the frozen version of a memory the proposal writes. */
  ghost predicate Belongs(item: Planned, agent: Agent, id: string, p: Proposal, snapshot: Snapshot) {
    var slug, change := item.operation.slug, item.operation.change;
    && item.proposalId == id && item.operation.agentId == agent && slug in Writes(p) && slug in snapshot
    && (change.Update? || change.Archive?) && change.ifMatch == Sha256(snapshot[slug])
  }

  lemma MemberWanted(agent: Agent, id: string, p: Proposal, order: seq<Slug>, snapshot: Snapshot, c: Context, i: nat,
        after: Stored)
    requires p.Merge? && Good(p, snapshot, c) && Others(p, order) && i < |order|
    requires (forall s :: s in order ==> s in snapshot) && forall s :: s in p.sourceSlugs ==> s in snapshot
    ensures var item := ArchiveOps(agent, id, order, snapshot)[i];
      && Belongs(item, agent, id, p, snapshot) && item.operation.slug != p.target
      && (CarriedOut(item, snapshot[item.operation.slug], after) ==> Retired(snapshot[item.operation.slug], after))
  {
    var slug := order[i];
    assert slug in order;
    if CarriedOut(ArchiveOps(agent, id, order, snapshot)[i], snapshot[slug], after) {
      ArchiveWanted(agent, id, slug, slug, Sha256(snapshot[slug]), true, snapshot[slug], after);
    }
  }

  lemma TargetWanted(agent: Agent, id: string, p: Proposal, snapshot: Snapshot, c: Context, after: Stored)
    requires p.Merge? && Good(p, snapshot, c) && forall s :: s in p.sourceSlugs ==> s in snapshot
    ensures var item := MergeOp(agent, id, p, Dedup(MemberSources(p.sourceSlugs, snapshot)));
      && Belongs(item, agent, id, p, snapshot) && item.operation.slug == p.target
      && (CarriedOut(item, snapshot[p.target], after) ==> Merged(p, snapshot, after))
  {
    assert Member(p, p.target, snapshot);
    if CarriedOut(MergeOp(agent, id, p, Dedup(MemberSources(p.sourceSlugs, snapshot))), snapshot[p.target], after) {
      MergeWanted(agent, id, p, snapshot, c, after);
    }
  }

  /** The item is an operation of the proposal, and carried out it does to its memory what the proposal wants. */
  ghost predicate Serves(item: Planned, agent: Agent, id: string, p: Proposal, snapshot: Snapshot, after: Stored)
    requires p.Merge? ==> forall s :: s in p.sourceSlugs ==> s in snapshot
  {
    && Belongs(item, agent, id, p, snapshot)
    && (CarriedOut(item, snapshot[item.operation.slug], after) ==> Wanted(p, item.operation.slug, snapshot, after))
  }

  lemma SingleServes(agent: Agent, id: string, p: Proposal, order: seq<Slug>, snapshot: Snapshot, c: Context, after: Stored,
        item: Planned)
    requires Good(p, snapshot, c) && !p.Merge? && (forall s :: s in order ==> s in snapshot)
    requires item in OpsFor(agent, id, p, order, snapshot)
    ensures Serves(item, agent, id, p, snapshot, after)
  {
    if CarriedOut(item, snapshot[p.target], after) {
      if p.Rewrite? {
        RewriteWanted(agent, id, p, snapshot, c, after);
      } else {
        ArchiveWanted(agent, id, "archive", p.target, p.version, false, snapshot[p.target], after);
      }
    }
  }

  lemma MergeServes(agent: Agent, id: string, p: Proposal, order: seq<Slug>, snapshot: Snapshot, c: Context, after: Stored,
        item: Planned)
    requires Good(p, snapshot, c) && p.Merge? && Others(p, order) && (forall s :: s in order ==> s in snapshot)
    requires (forall s :: s in p.sourceSlugs ==> s in snapshot) && item in OpsFor(agent, id, p, order, snapshot)
    ensures Serves(item, agent, id, p, snapshot, after)
  {
    var first, rest := MergeOp(agent, id, p, Dedup(MemberSources(p.sourceSlugs, snapshot))), ArchiveOps(agent, id, order, snapshot);
    assert item in [first] + rest;
    if item == first {
      TargetWanted(agent, id, p, snapshot, c, after);
    } else {
      var i :| 0 <= i < |rest| && rest[i] == item;
      MemberWanted(agent, id, p, order, snapshot, c, i, after);
    }
  }

  /** Each operation of an accepted proposal does to its memory what the proposal wants. */
  lemma OperationWanted(agent: Agent, id: string, p: Proposal, order: seq<Slug>, snapshot: Snapshot, c: Context, after: Stored,
        item: Planned)
    requires Good(p, snapshot, c) && Others(p, order) && (forall s :: s in order ==> s in snapshot)
    requires (p.Merge? ==> forall s :: s in p.sourceSlugs ==> s in snapshot) && item in OpsFor(agent, id, p, order, snapshot)
    ensures Serves(item, agent, id, p, snapshot, after)
  {
    if p.Merge? {
      MergeServes(agent, id, p, order, snapshot, c, after, item);
    } else {
      SingleServes(agent, id, p, order, snapshot, c, after, item);
    }
  }

  /** And none of the memories a proposal writes is forgotten. */
  lemma OperationsCover(agent: Agent, id: string, p: Proposal, order: seq<Slug>, snapshot: Snapshot, slug: Slug)
      returns (item: Planned)
    requires Others(p, order) && (forall s :: s in order ==> s in snapshot) && slug in Writes(p)
    requires p.Merge? ==> p.target in p.sourceSlugs && forall s :: s in p.sourceSlugs ==> s in snapshot
    ensures item in OpsFor(agent, id, p, order, snapshot) && item.operation.slug == slug
  {
    if p.Merge? && slug != p.target {
      assert slug in DreamOperations.Archived(p);
      var i :| 0 <= i < |order| && order[i] == slug;
      item := ArchiveOps(agent, id, order, snapshot)[i];
    } else {
      item := OpsFor(agent, id, p, order, snapshot)[0];
    }
  }

  // ------------------------------------------------------------ the whole job

  lemma PlanEnds(agent: Agent, ids: seq<string>, proposals: seq<Proposal>, orders: seq<seq<Slug>>, snapshot: Snapshot)
    requires |ids| == |proposals| && Sorting(proposals, orders) && Known(proposals, snapshot) && proposals != []
    ensures var n := |proposals| - 1;
      && Sorting(proposals[..n], orders[..n]) && Known(proposals[..n], snapshot) && (forall s :: s in orders[n] ==> s in snapshot)
      && forall item :: item in PlanOf(agent, ids, proposals, orders, snapshot) <==>
           || item in PlanOf(agent, ids[..n], proposals[..n], orders[..n], snapshot)
           || item in OpsFor(agent, ids[n], proposals[n], orders[n], snapshot)
  {
  }

  lemma {:induction false} InPlan(agent: Agent, ids: seq<string>, proposals: seq<Proposal>, orders: seq<seq<Slug>>,
        snapshot: Snapshot, i: nat, item: Planned)
    requires |ids| == |proposals| && Sorting(proposals, orders) && Known(proposals, snapshot) && i < |proposals|
    requires (forall s :: s in orders[i] ==> s in snapshot) && item in OpsFor(agent, ids[i], proposals[i], orders[i], snapshot)
    ensures item in PlanOf(agent, ids, proposals, orders, snapshot)
    decreases |proposals|
  {
    PlanEnds(agent, ids, proposals, orders, snapshot);
    var n := |proposals| - 1;
    if i < n {
      assert ids[..n][i] == ids[i] && proposals[..n][i] == proposals[i] && orders[..n][i] == orders[i];
      InPlan(agent, ids[..n], proposals[..n], orders[..n], snapshot, i, item);
    }
  }

  /** After a job that has done everything, each operation of its plan has been carried out. */
  lemma DoneIsCarriedOut(records: Records, plan: seq<Planned>, frozen: Records, j: nat)
    requires IsPlan(plan, frozen) && Uninterrupted(records, plan, frozen) && j < |plan|
    ensures var key := KeyOf(plan[j].operation);
      key in frozen && key in records && CarriedOut(plan[j], frozen[key], records[key])
  {
    var key, change := KeyOf(plan[j].operation), plan[j].operation.change;
    if !Reached(Some(frozen[key]), plan[j]) {
      var now :| records[key] == Patched(frozen[key], change, now);
      assert Revised(frozen[key], records[key], change, now);
    }
  }

  /**
   * What accepted proposals come to: when the job over their operations has done everything, every memory a proposal
   * writes is as the proposal wants it.
   */
  lemma AcceptedOutcome(agent: Agent, ids: seq<string>, proposals: seq<Proposal>, snapshot: Snapshot, c: Context,
        frozen: Records, records: Records, i: nat, slug: Slug)
    requires |ids| == |proposals| && Known(proposals, snapshot) && AllGood(proposals, snapshot, c)
    requires SnapshotOf(snapshot, agent, frozen) && IsPlan(Operations(agent, ids, proposals, snapshot), frozen)
    requires Uninterrupted(records, Operations(agent, ids, proposals, snapshot), frozen)
    requires i < |proposals| && slug in Writes(proposals[i])
    ensures slug in snapshot && (agent, slug) in records
      && Wanted(proposals[i], slug, snapshot, records[(agent, slug)])
  {
    var p, order := proposals[i], Orders(proposals)[i];
    var plan := Operations(agent, ids, proposals, snapshot);
    assert Good(p, snapshot, c) && Others(p, order);
    forall s | s in order ensures s in snapshot { assert s in DreamOperations.Archived(p); }
    var item := OperationsCover(agent, ids[i], p, order, snapshot, slug);
    InPlan(agent, ids, proposals, Orders(proposals), snapshot, i, item);
    var j :| 0 <= j < |plan| && plan[j] == item;
    DoneIsCarriedOut(records, plan, frozen, j);
    OperationWanted(agent, ids[i], p, order, snapshot, c, records[KeyOf(item.operation)], item);
  }

  /**
   * Nothing is invented and nothing is lost: a rewritten memory says what it said; a merged one says what one of its
   * members said, who were all the same fact or all said the same, and links wherever they linked outside the group;
   * a retired one leaves behind another that was active when frozen, and is the same fact or says the same.
   */
  lemma NothingInvented(p: Proposal, slug: Slug, snapshot: Snapshot, c: Context, after: Stored)
    requires Good(p, snapshot, c) && slug in Writes(p) && slug in snapshot
    requires (p.Merge? ==> forall s :: s in p.sourceSlugs ==> s in snapshot) && Wanted(p, slug, snapshot, after)
    ensures p.Rewrite? ==> c.semantic(after.content) == c.semantic(snapshot[slug].content)
    ensures p.Merge? ==>
      p.sourceVersions.Keys == (set s | s in p.sourceSlugs)
      && forall s :: s in p.sourceSlugs ==> snapshot[s].status == Active && p.sourceVersions[s] == Sha256(snapshot[s])
    ensures p.Merge? && slug == p.target ==>
      && (exists s :: s in p.sourceSlugs && c.semantic(after.content) == c.semantic(snapshot[s].content))
      && (forall s, t :: s in p.sourceSlugs && t in p.sourceSlugs ==> Duplicates(s, t, snapshot, c))
      && forall s, l :: s in p.sourceSlugs && l in c.links(snapshot[s].content) ==> l in p.sourceSlugs || l in c.links(after.content)
    ensures p.Retire? ==>
      exists r :: r in snapshot && r != slug && snapshot[r].status == Active && Duplicates(slug, r, snapshot, c)
  {
    if p.Retire? { assert Duplicates(slug, p.replacement, snapshot, c); }
    if p.Merge? {
      VersionsCover(p, snapshot, c);
      forall s, t | s in p.sourceSlugs && t in p.sourceSlugs ensures Duplicates(s, t, snapshot, c) {
        if forall s, t :: s in p.sourceSlugs && t in p.sourceSlugs ==> SameFact(s, t, c.facts) {
          assert SameFact(s, t, c.facts);
        }
      }
    }
  }

  /** As many versions as members, and one for each: the versions named are those of the members. */
  lemma VersionsCover(p: Proposal, snapshot: Snapshot, c: Context)
    requires p.Merge? && Good(p, snapshot, c)
    ensures p.sourceVersions.Keys == set s | s in p.sourceSlugs
  {
    var members := set s | s in p.sourceSlugs;
    forall s | s in members ensures s in p.sourceVersions.Keys { assert Member(p, s, snapshot); }
    DistinctSize(p.sourceSlugs);
    assert |p.sourceVersions.Keys| == |p.sourceVersions| == |members|;
    SameSize(members, p.sourceVersions.Keys);
  }

  lemma {:induction false} DistinctSize(s: seq<Slug>)
    requires Distinct(s)
    ensures |set x | x in s| == |s|
  {
    if s != [] {
      var n := |s| - 1;
      DistinctSize(s[..n]);
      assert s == s[..n] + [s[n]];
      assert (set x | x in s) == (set x | x in s[..n]) + {s[n]};
      assert s[n] !in s[..n];
    }
  }

  lemma SameSize(a: set<Slug>, b: set<Slug>)
    requires a <= b && |a| == |b|
    ensures a == b
  {
    if a != b {
      var x :| x in b && x !in a;
      assert a <= b - {x};
      Fewer(a, b - {x});
    }
  }

  lemma {:induction false} Fewer(a: set<Slug>, b: set<Slug>)
    requires a <= b
    ensures |a| <= |b|
    decreases a
  {
    if a != {} {
      var x :| x in a;
      Fewer(a - {x}, b - {x});
    }
  }

  predicate Duplicates(s: Slug, t: Slug, snapshot: Snapshot, c: Context)
    requires s in snapshot && t in snapshot
  {
    || (s in c.facts && t in c.facts && c.facts[s] == c.facts[t])
    || c.semantic(snapshot[s].content) == c.semantic(snapshot[t].content)
  }

  /** Operations are named after their proposal and what they do to which memory. */
  lemma OperationIds(agent: Agent, digits: string, p: Proposal, order: seq<Slug>, snapshot: Snapshot, k: nat)
    requires Others(p, order) && forall s :: s in order ==> s in snapshot
    requires p.Merge? ==> forall s :: s in p.sourceSlugs ==> s in snapshot
    requires k < |OpsFor(agent, "dpr_" + digits, p, order, snapshot)|
    ensures var item := OpsFor(agent, "dpr_" + digits, p, order, snapshot)[k];
      item.operation.operationId == "mop_" + digits + "_"
        + (if p.Rewrite? then "update" else if p.Retire? then "archive" else if k == 0 then "merge" else item.operation.slug)
      && item.proposalId == "dpr_" + digits && item.operation.agentId == agent && (item.merge <==> p.Merge?)
    ensures ProposalId("dpr_" + digits)
  {
    assert Stem("dpr_" + digits) == digits;
    if p.Merge? && k > 0 {
      assert OpsFor(agent, "dpr_" + digits, p, order, snapshot)[k] == ArchiveOps(agent, "dpr_" + digits, order, snapshot)[k - 1];
      assert order[k - 1] in order;
    }
  }
}
