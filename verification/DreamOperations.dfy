/** The operations made of accepted Dream proposals, and that they are the plan the Dream job relies on. */
module DreamOperations {
  import opened Options
  import opened Texts
  import opened MemoryRecords
  import opened MemoryDream
  import opened DreamPlan

  // ---------------------------------------------------------------- sources

  function KeySet(sources: seq<Source>): set<string> { set s | s in sources :: SourceKey(s) }

  /** The first source of each key, in order. */
  function Dedup(sources: seq<Source>): seq<Source> {
    if sources == [] then []
    else
      var n := |sources| - 1;
      Dedup(sources[..n]) + if SourceKey(sources[n]) in KeySet(sources[..n]) then [] else [sources[n]]
  }

  method MergeSourceRefs(current: seq<Source>, additions: seq<Source>) returns (merged: seq<Source>)
    ensures merged == Dedup(current + additions)
  {
    var all := current + additions;
    var seen: set<string> := {};
    merged := [];
    for i := 0 to |all|
      invariant merged == Dedup(all[..i]) && seen == KeySet(all[..i])
    {
      PrefixGrows(all, i);
      KeySetMore(all[..i], all[i]);
      DedupMore(all[..i], all[i]);
      if SourceKey(all[i]) !in seen { merged := merged + [all[i]]; }
      seen := seen + {SourceKey(all[i])};
    }
    assert all[..|all|] == all;
  }

  lemma DedupMore(sources: seq<Source>, s: Source)
    ensures Dedup(sources + [s]) == Dedup(sources) + if SourceKey(s) in KeySet(sources) then [] else [s]
  {
    assert (sources + [s])[..|sources|] == sources;
  }

  lemma KeySetMore(sources: seq<Source>, s: Source)
    ensures KeySet(sources + [s]) == KeySet(sources) + {SourceKey(s)}
  {
    assert forall x :: x in sources + [s] <==> x in sources || x == s;
  }

  /** The union: every key once, no other, and only sources that were given. */
  lemma {:induction false} DedupUnion(sources: seq<Source>)
    ensures KeySet(Dedup(sources)) == KeySet(sources)
    ensures forall i, j :: 0 <= i < j < |Dedup(sources)| ==> SourceKey(Dedup(sources)[i]) != SourceKey(Dedup(sources)[j])
    ensures forall s :: s in Dedup(sources) ==> s in sources
  {
    if sources != [] {
      var n := |sources| - 1;
      DedupUnion(sources[..n]);
      assert sources == sources[..n] + [sources[n]];
      KeySetMore(sources[..n], sources[n]);
      KeySetMore(Dedup(sources[..n]), sources[n]);
      forall i | 0 <= i < |Dedup(sources[..n])| ensures SourceKey(Dedup(sources[..n])[i]) in KeySet(sources[..n]) {
        assert Dedup(sources[..n])[i] in Dedup(sources[..n]);
      }
    }
  }

  /** No two different sources share a key. */
  predicate KeysDiffer(sources: seq<Source>) {
    forall a, b :: a in sources && b in sources && SourceKey(a) == SourceKey(b) ==> a == b
  }

  predicate AllKept(sources: seq<Source>) { forall s :: s in sources ==> s in Dedup(sources) }

  lemma KeptDiffer(sources: seq<Source>)
    requires AllKept(sources)
    ensures KeysDiffer(sources)
  {
    DedupUnion(sources);
    var kept := Dedup(sources);
    forall a, b: Source | a in sources && b in sources && SourceKey(a) == SourceKey(b) ensures a == b {
      var i :| 0 <= i < |kept| && kept[i] == a;
      var j :| 0 <= j < |kept| && kept[j] == b;
    }
  }

  lemma DifferKept(sources: seq<Source>)
    requires KeysDiffer(sources)
    ensures AllKept(sources)
  {
    DedupUnion(sources);
    var kept := Dedup(sources);
    forall s | s in sources ensures s in kept {
      assert SourceKey(s) in KeySet(kept);
      var t :| t in kept && SourceKey(t) == SourceKey(s);
    }
  }

  /** No source is lost if and only if no two different ones share a key. */
  lemma DedupLossless(sources: seq<Source>)
    ensures AllKept(sources) <==> KeysDiffer(sources)
  {
    if AllKept(sources) { KeptDiffer(sources); }
    if KeysDiffer(sources) { DifferKept(sources); }
  }

  /** Colons in a space id make different messages share a key; the merge then keeps only one of them. */
  lemma ColonKeysClash()
    ensures var a, b := Message("a:b", "c"), Message("a", "b:c");
      a != b && SourceKey(a) == SourceKey(b) && b !in Dedup([a, b])
  {
    var a, b := Message("a:b", "c"), Message("a", "b:c");
    assert SourceKey(a) == "message:a:b:c" && SourceKey(b) == "message:a:b:c";
    assert a != b by { assert |a.spaceId| != |b.spaceId|; }
    assert [a, b][..1] == [a] && [a][..0] == [];
    assert KeySet([a]) == {SourceKey(a)} by { assert a in [a]; }
    assert Dedup([a]) == [a];
  }

  predicate NoColon(s: string) { ':' !in s }

  function UpToColon(s: string): string {
    if s == "" || s[0] == ':' then "" else [s[0]] + UpToColon(s[1..])
  }

  lemma {:induction false} UpToColonOf(a: string, x: string)
    requires NoColon(a)
    ensures UpToColon(a + ":" + x) == a
  {
    if a != "" {
      var s := a + ":" + x;
      assert a[0] in a;
      assert s[1..] == a[1..] + ":" + x;
      UpToColonOf(a[1..], x);
    }
  }

  lemma SplitKey(a: string, b: string, x: string, y: string)
    requires NoColon(a) && NoColon(b) && a + ":" + x == b + ":" + y
    ensures a == b && x == y
  {
    UpToColonOf(a, x);
    UpToColonOf(b, y);
    assert (a + ":" + x)[|a| + 1..] == x && (b + ":" + y)[|b| + 1..] == y;
  }

  /** The part of a key before its first colon, between the first and the second, and after that. */
  function KindOf(a: Source): string {
    match a
    case Message(_, _) => "message"
    case DeletedMessage(_, _, _) => "deleted-message"
    case Manual(_, _) => "manual"
  }

  function OwnerOf(a: Source): string { if a.Manual? then a.actor else a.spaceId }

  function DetailOf(a: Source): string { if a.Manual? then a.capturedAt else a.messageId }

  /** The same source, but for when a message was deleted: that is not in the key. */
  predicate SameRef(a: Source, b: Source) {
    if a.DeletedMessage? then b == a.(deletedAt := if b.DeletedMessage? then b.deletedAt else a.deletedAt) else a == b
  }

  lemma KeyParts(a: Source)
    ensures SourceKey(a) == KindOf(a) + ":" + (OwnerOf(a) + ":" + DetailOf(a)) && NoColon(KindOf(a))
  {
    match a
    case Message(x, y) => assert SourceKey(a) == "message" + ":" + (x + ":" + y);
    case DeletedMessage(x, y, _) => assert SourceKey(a) == "deleted-message" + ":" + (x + ":" + y);
    case Manual(x, y) => assert SourceKey(a) == "manual" + ":" + (x + ":" + y);
  }

  /** Without colons in space ids and actors, sources share a key exactly when they are the same but for `deletedAt`. */
  lemma KeysExact(a: Source, b: Source)
    requires NoColon(OwnerOf(a)) && NoColon(OwnerOf(b))
    ensures SourceKey(a) == SourceKey(b) <==> SameRef(a, b)
  {
    KeyParts(a);
    KeyParts(b);
    if SourceKey(a) == SourceKey(b) {
      SplitKey(KindOf(a), KindOf(b), OwnerOf(a) + ":" + DetailOf(a), OwnerOf(b) + ":" + DetailOf(b));
      SplitKey(OwnerOf(a), OwnerOf(b), DetailOf(a), DetailOf(b));
    }
  }

  /** So a merge keeps the first of two records of one deletion that differ in when it took place. */
  lemma DeletionsMerge(spaceId: string, messageId: string, first: string, second: string)
    requires first != second
    ensures var a, b := DeletedMessage(spaceId, messageId, first), DeletedMessage(spaceId, messageId, second);
      a != b && Dedup([a, b]) == [a]
  {
    var a, b := DeletedMessage(spaceId, messageId, first), DeletedMessage(spaceId, messageId, second);
    assert [a, b][..1] == [a] && [a][..0] == [];
    assert KeySet([a]) == {SourceKey(a)} by { assert a in [a]; }
    assert Dedup([a]) == [a];
  }

  // ---------------------------------------------------------------- the plan

  /** `slice(4)` */
  function Stem(id: string): string { if |id| <= 4 then "" else id[4..] }

  function OperationId(proposalId: string, suffix: string): string { "mop_" + Stem(proposalId) + "_" + suffix }

  function MemberSources(slugs: seq<Slug>, snapshot: Snapshot): seq<Source>
    requires forall s :: s in slugs ==> s in snapshot
  {
    if slugs == [] then [] else MemberSources(slugs[..|slugs| - 1], snapshot) + snapshot[slugs[|slugs| - 1]].sources
  }

  /** The members a merge archives. */
  function Archived(p: Proposal): set<Slug> {
    if p.Merge? then (set s | s in p.sourceSlugs) - {p.target} else {}
  }

  /** Those, in order. */
  ghost predicate Others(p: Proposal, order: seq<Slug>) {
    Enumerates(order, Archived(p))
  }

  function RewriteOp(agent: Agent, id: string, p: Proposal): Planned
    requires p.Rewrite?
  {
    Planned(id, Operation(OperationId(id, "update"), agent, p.target,
      Update(p.version, EMPTY_PATCH.(kind := p.kind, description := p.description, content := p.content))), false)
  }

  function MergeOp(agent: Agent, id: string, p: Proposal, sources: seq<Source>): Planned
    requires p.Merge?
  {
    Planned(id, Operation(OperationId(id, "merge"), agent, p.target,
      Update(p.version, EMPTY_PATCH.(kind := Some(p.newKind), description := Some(p.newDescription),
                                    content := Some(p.newContent), sources := Some(sources)))), true)
  }

  function ArchiveOp(agent: Agent, id: string, suffix: string, slug: Slug, version: Version, merge: bool): Planned {
    Planned(id, Operation(OperationId(id, suffix), agent, slug, Archive(version, EMPTY_PATCH)), merge)
  }

  function ArchiveOps(agent: Agent, id: string, order: seq<Slug>, snapshot: Snapshot): seq<Planned>
    requires forall s :: s in order ==> s in snapshot
  {
    seq(|order|, i requires 0 <= i < |order| =>
      assert order[i] in order;
      ArchiveOp(agent, id, order[i], order[i], Sha256(snapshot[order[i]]), true))
  }

  /** What one accepted proposal turns into. */
  function OpsFor(agent: Agent, id: string, p: Proposal, order: seq<Slug>, snapshot: Snapshot): seq<Planned>
    requires forall s :: s in order ==> s in snapshot
    requires p.Merge? ==> forall s :: s in p.sourceSlugs ==> s in snapshot
  {
    match p
    case Keep(_, _) => []
    case Rewrite(_, _, _, _, _) => [RewriteOp(agent, id, p)]
    case Retire(target, version, _) => [ArchiveOp(agent, id, "archive", target, version, false)]
    case Merge(_, _, sourceSlugs, _, _, _, _) =>
      [MergeOp(agent, id, p, Dedup(MemberSources(sourceSlugs, snapshot)))] + ArchiveOps(agent, id, order, snapshot)
  }

  ghost predicate Sorting(proposals: seq<Proposal>, orders: seq<seq<Slug>>) {
    |orders| == |proposals| && forall i :: 0 <= i < |proposals| ==> Others(proposals[i], orders[i])
  }

  ghost predicate Known(proposals: seq<Proposal>, snapshot: Snapshot) {
    forall i :: 0 <= i < |proposals| && proposals[i].Merge? ==> forall s :: s in proposals[i].sourceSlugs ==> s in snapshot
  }

  ghost function PlanOf(agent: Agent, ids: seq<string>, proposals: seq<Proposal>, orders: seq<seq<Slug>>,
        snapshot: Snapshot): seq<Planned>
    requires |ids| == |proposals| && Sorting(proposals, orders) && Known(proposals, snapshot)
  {
    if proposals == [] then []
    else
      var n := |proposals| - 1;
      PlanOf(agent, ids[..n], proposals[..n], orders[..n], snapshot) + OpsFor(agent, ids[n], proposals[n], orders[n], snapshot)
  }

  method PushArchives(agent: Agent, id: string, order: seq<Slug>, snapshot: Snapshot, start: seq<Planned>)
      returns (operations: seq<Planned>)
    requires forall s :: s in order ==> s in snapshot
    ensures operations == start + ArchiveOps(agent, id, order, snapshot)
  {
    operations := start;
    for i := 0 to |order|
      invariant operations == start + ArchiveOps(agent, id, order, snapshot)[..i]
    {
      assert order[i] in order;
      operations := operations + [ArchiveOp(agent, id, order[i], order[i], Sha256(snapshot[order[i]]), true)];
    }
  }

  method GatherSources(slugs: seq<Slug>, snapshot: Snapshot) returns (sources: seq<Source>)
    requires forall s :: s in slugs ==> s in snapshot
    ensures sources == MemberSources(slugs, snapshot)
  {
    sources := [];
    for i := 0 to |slugs|
      invariant sources == MemberSources(slugs[..i], snapshot)
    {
      assert slugs[..i + 1][..i] == slugs[..i];
      sources := sources + snapshot[slugs[i]].sources;
    }
    assert slugs[..|slugs|] == slugs;
  }

  method PushFor(agent: Agent, id: string, p: Proposal, snapshot: Snapshot, start: seq<Planned>)
    returns (operations: seq<Planned>, ghost order: seq<Slug>)
    requires p.Merge? ==> forall s :: s in p.sourceSlugs ==> s in snapshot
    ensures Others(p, order) && operations == start + OpsFor(agent, id, p, order, snapshot)
  {
    order := [];
    match p
    case Keep(_, _) => operations := start;
    case Rewrite(_, _, _, _, _) => operations := start + [RewriteOp(agent, id, p)];
    case Retire(target, version, _) => operations := start + [ArchiveOp(agent, id, "archive", target, version, false)];
    case Merge(target, _, sourceSlugs, _, _, _, _) =>
      var all := GatherSources(sourceSlugs, snapshot);
      var sources := MergeSourceRefs([], all);
      assert [] + all == all;
      var others := SortedKeys(Archived(p));
      order := others;
      operations := PushArchives(agent, id, others, snapshot, start + [MergeOp(agent, id, p, sources)]);
      assert start + [MergeOp(agent, id, p, sources)] + ArchiveOps(agent, id, others, snapshot)
          == start + ([MergeOp(agent, id, p, sources)] + ArchiveOps(agent, id, others, snapshot));
  }

  ghost function Orders(proposals: seq<Proposal>): (orders: seq<seq<Slug>>)
    ensures Sorting(proposals, orders)
  {
    if proposals == [] then []
    else
      var n := |proposals| - 1;
      Orders(proposals[..n]) + [Arrange(Archived(proposals[n]))]
  }

  /** The operations of all proposals, the members of each merge in slug order. */
  ghost function Operations(agent: Agent, ids: seq<string>, proposals: seq<Proposal>, snapshot: Snapshot): seq<Planned>
    requires |ids| == |proposals| && Known(proposals, snapshot)
  {
    PlanOf(agent, ids, proposals, Orders(proposals), snapshot)
  }

  method PlanDreamOperations(agent: Agent, ids: seq<string>, proposals: seq<Proposal>, snapshot: Snapshot)
    returns (operations: seq<Planned>)
    requires |ids| == |proposals| && Known(proposals, snapshot)
    ensures operations == Operations(agent, ids, proposals, snapshot)
  {
    operations := [];
    for i := 0 to |proposals|
      invariant operations == PlanOf(agent, ids[..i], proposals[..i], Orders(proposals[..i]), snapshot)
    {
      ghost var order;
      operations, order := PushFor(agent, ids[i], proposals[i], snapshot, operations);
      PlanMore(agent, ids, proposals, Orders(proposals[..i]), order, snapshot, i);
      EnumerationUnique(order, Arrange(Archived(proposals[i])), Archived(proposals[i]));
      assert proposals[..i + 1][..i] == proposals[..i];
    }
    assert ids[..|ids|] == ids && proposals[..|proposals|] == proposals;
  }

  lemma PlanMore(agent: Agent, ids: seq<string>, proposals: seq<Proposal>, orders: seq<seq<Slug>>, order: seq<Slug>,
        snapshot: Snapshot, i: nat)
    requires |ids| == |proposals| && i < |proposals| && Known(proposals, snapshot)
    requires Sorting(proposals[..i], orders) && Others(proposals[i], order)
    ensures Sorting(proposals[..i + 1], orders + [order])
    ensures PlanOf(agent, ids[..i + 1], proposals[..i + 1], orders + [order], snapshot)
         == PlanOf(agent, ids[..i], proposals[..i], orders, snapshot) + OpsFor(agent, ids[i], proposals[i], order, snapshot)
  {
    assert ids[..i + 1][..i] == ids[..i] && proposals[..i + 1][..i] == proposals[..i] && (orders + [order])[..i] == orders;
  }

  // ------------------------------------------------ it is a plan, and when

  ghost predicate SnapshotOf(snapshot: Snapshot, agent: Agent, frozen: Records) {
    forall s :: s in snapshot ==> (agent, s) in frozen && frozen[(agent, s)] == snapshot[s]
  }

  lemma IdsDiffer(a: string, s: string, b: string, t: string)
    requires a == b || (ProposalId(a) && ProposalId(b) && |a| == |b|)
    ensures OperationId(a, s) == OperationId(b, t) <==> a == b && s == t
  {
    var n := 4 + |Stem(a)|;
    assert OperationId(a, s)[4..n] == Stem(a) && OperationId(b, t)[4..n] == Stem(b);
    assert OperationId(a, s)[n + 1..] == s && OperationId(b, t)[n + 1..] == t;
    if |a| >= 4 && |b| >= 4 { assert a == a[..4] + a[4..] && b == b[..4] + b[4..]; }
  }

  /** `dpr_` and the same number of digits after it. */
  predicate ProposalId(id: string) { |id| >= 4 && id[..4] == "dpr_" }

  /** Each operation is named after its proposal, and writes one of these memories. */
  ghost predicate Tagged(plan: seq<Planned>, agent: Agent, ids: seq<string>, slugs: set<Slug>) {
    forall i :: 0 <= i < |plan| ==> TaggedAs(plan[i], agent, ids, slugs)
  }

  ghost predicate TaggedAs(item: Planned, agent: Agent, ids: seq<string>, slugs: set<Slug>) {
    && item.operation.agentId == agent && item.operation.slug in slugs && item.proposalId in ids
    && exists suffix :: item.operation.operationId == OperationId(item.proposalId, suffix)
  }

  ghost predicate ProposalIds(ids: seq<string>) {
    Distinct(ids) && (forall a :: a in ids ==> ProposalId(a)) && forall a, b :: a in ids && b in ids ==> |a| == |b|
  }

  /** Parts with different proposals and different memories put together. */
  lemma PlanConcat(a: seq<Planned>, b: seq<Planned>, frozen: Records)
    requires forall i, j :: 0 <= i < |a| && 0 <= j < |b| ==> Unlike(a[i], b[j])
    ensures IsPlan(a + b, frozen) <==> IsPlan(a, frozen) && IsPlan(b, frozen)
  {
    var c := a + b;
    if IsPlan(c, frozen) {
      forall i | 0 <= i < |a| ensures c[i] == a[i] {}
      forall j | 0 <= j < |b| ensures c[|a| + j] == b[j] {}
      PlanParts(a, b, frozen);
    }
    if IsPlan(a, frozen) && IsPlan(b, frozen) {
      forall i, j | 0 <= i < j < |c| ensures Unlike(c[i], c[j]) {
        if i < |a| <= j { assert Unlike(a[i], b[j - |a|]); }
      }
      forall i | 0 <= i < |c| ensures IsPlanned(c[i], frozen) {}
      PlanFrom(c, frozen);
    }
  }

  ghost predicate Unlike(x: Planned, y: Planned) {
    KeyOf(x.operation) != KeyOf(y.operation) && x.operation.operationId != y.operation.operationId
  }

  lemma PlanParts(a: seq<Planned>, b: seq<Planned>, frozen: Records)
    requires IsPlan(a + b, frozen)
    ensures IsPlan(a, frozen) && IsPlan(b, frozen)
  {
    var c := a + b;
    forall i | 0 <= i < |a| ensures IsPlanned(a[i], frozen) { assert IsPlanned(c[i], frozen); }
    forall j | 0 <= j < |b| ensures IsPlanned(b[j], frozen) { assert IsPlanned(c[|a| + j], frozen); }
    forall i, j | 0 <= i < j < |a| ensures Unlike(a[i], a[j]) { assert a[i] == c[i] && a[j] == c[j]; }
    forall i, j | 0 <= i < j < |b| ensures Unlike(b[i], b[j]) { assert b[i] == c[|a| + i] && b[j] == c[|a| + j]; }
    PlanFrom(a, frozen);
    PlanFrom(b, frozen);
  }

  lemma PlanFrom(plan: seq<Planned>, frozen: Records)
    requires forall i :: 0 <= i < |plan| ==> IsPlanned(plan[i], frozen)
    requires forall i, j :: 0 <= i < j < |plan| ==> Unlike(plan[i], plan[j])
    ensures IsPlan(plan, frozen)
  {
    forall i, j | 0 <= i < j < |plan| ensures KeyOf(plan[i].operation) != KeyOf(plan[j].operation) {
      assert Unlike(plan[i], plan[j]);
    }
    forall i, j | 0 <= i < j < |plan| ensures plan[i].operation.operationId != plan[j].operation.operationId {
      assert Unlike(plan[i], plan[j]);
    }
  }

  /** A merge whose archived members include one with the slug `merge`: that archive gets the merge's own id. */
  predicate NamedMerge(p: Proposal) { p.Merge? && "merge" in p.sourceSlugs && p.target != "merge" }

  lemma OpsTagged(agent: Agent, id: string, p: Proposal, order: seq<Slug>, snapshot: Snapshot)
    requires Others(p, order) && (forall s :: s in order ==> s in snapshot)
    requires p.Merge? ==> forall s :: s in p.sourceSlugs ==> s in snapshot
    ensures Tagged(OpsFor(agent, id, p, order, snapshot), agent, [id], Writes(p))
  {
    var ops := OpsFor(agent, id, p, order, snapshot);
    forall i | 0 <= i < |ops| ensures TaggedAs(ops[i], agent, [id], Writes(p)) {
      if p.Merge? && i > 0 {
        assert ops[i] == ArchiveOps(agent, id, order, snapshot)[i - 1];
        assert order[i - 1] in order;
        assert ops[i].operation.operationId == OperationId(ops[i].proposalId, order[i - 1]);
      } else if p.Merge? {
        assert ops[i].operation.operationId == OperationId(ops[i].proposalId, "merge");
      } else if p.Rewrite? {
        assert ops[i].operation.operationId == OperationId(ops[i].proposalId, "update");
      } else {
        assert ops[i].operation.operationId == OperationId(ops[i].proposalId, "archive");
      }
    }
  }

  lemma OpsPlanned(agent: Agent, id: string, p: Proposal, order: seq<Slug>, snapshot: Snapshot, c: Context,
        frozen: Records)
    requires Good(p, snapshot, c) && Others(p, order) && SnapshotOf(snapshot, agent, frozen)
    requires forall s :: s in order ==> s in snapshot
    requires p.Merge? ==> forall s :: s in p.sourceSlugs ==> s in snapshot
    ensures forall i :: 0 <= i < |OpsFor(agent, id, p, order, snapshot)| ==> IsPlanned(OpsFor(agent, id, p, order, snapshot)[i], frozen)
  {
    var ops := OpsFor(agent, id, p, order, snapshot);
    forall i | 0 <= i < |ops| ensures IsPlanned(ops[i], frozen) {
      if p.Merge? {
        assert Member(p, p.target, snapshot);
        if i > 0 {
          assert ops[i] == ArchiveOps(agent, id, order, snapshot)[i - 1];
          assert order[i - 1] in order;
        }
      }
    }
  }

  /** The operations of one good proposal are a plan, unless it is a merge with a member named like its own operation. */
  lemma OpsArePlan(agent: Agent, id: string, p: Proposal, order: seq<Slug>, snapshot: Snapshot, c: Context,
        frozen: Records)
    requires Good(p, snapshot, c) && Others(p, order) && SnapshotOf(snapshot, agent, frozen)
    requires forall s :: s in order ==> s in snapshot
    requires p.Merge? ==> forall s :: s in p.sourceSlugs ==> s in snapshot
    ensures IsPlan(OpsFor(agent, id, p, order, snapshot), frozen) <==> !NamedMerge(p)
  {
    var ops := OpsFor(agent, id, p, order, snapshot);
    OpsPlanned(agent, id, p, order, snapshot, c, frozen);
    if NamedMerge(p) {
      SharedId(agent, id, p, order, snapshot);
    } else {
      forall i, j | 0 <= i < j < |ops| ensures Unlike(ops[i], ops[j]) {
        MergeUnlike(agent, id, p, order, snapshot, i, j);
      }
      PlanFrom(ops, frozen);
    }
  }

  lemma SharedId(agent: Agent, id: string, p: Proposal, order: seq<Slug>, snapshot: Snapshot)
    requires Others(p, order) && (forall s :: s in order ==> s in snapshot) && NamedMerge(p)
    requires forall s :: s in p.sourceSlugs ==> s in snapshot
    ensures var ops := OpsFor(agent, id, p, order, snapshot);
      exists k :: 0 < k < |ops| && ops[0].operation.operationId == ops[k].operation.operationId
  {
    var ops := OpsFor(agent, id, p, order, snapshot);
    assert "merge" in order;
    var k :| 0 <= k < |order| && order[k] == "merge";
    assert ops[k + 1] == ArchiveOps(agent, id, order, snapshot)[k];
  }

  lemma MergeUnlike(agent: Agent, id: string, p: Proposal, order: seq<Slug>, snapshot: Snapshot, i: nat, j: nat)
    requires Others(p, order) && (forall s :: s in order ==> s in snapshot) && !NamedMerge(p)
    requires p.Merge? ==> forall s :: s in p.sourceSlugs ==> s in snapshot
    requires i < j < |OpsFor(agent, id, p, order, snapshot)|
    ensures Unlike(OpsFor(agent, id, p, order, snapshot)[i], OpsFor(agent, id, p, order, snapshot)[j])
  {
    var ops := OpsFor(agent, id, p, order, snapshot);
    assert p.Merge?;
    assert ops[j] == ArchiveOps(agent, id, order, snapshot)[j - 1];
    assert order[j - 1] in order;
    if i == 0 {
      IdsDiffer(id, "merge", id, order[j - 1]);
    } else {
      assert ops[i] == ArchiveOps(agent, id, order, snapshot)[i - 1];
      IdsDiffer(id, order[i - 1], id, order[j - 1]);
      Trichotomy(order[i - 1], order[j - 1]);
    }
  }

  ghost predicate NoNamedMerge(proposals: seq<Proposal>) {
    forall i :: 0 <= i < |proposals| ==> !NamedMerge(proposals[i])
  }

  lemma {:induction false} PlanTagged(agent: Agent, ids: seq<string>, proposals: seq<Proposal>,
        orders: seq<seq<Slug>>, snapshot: Snapshot)
    requires |ids| == |proposals| && Sorting(proposals, orders) && Known(proposals, snapshot)
    ensures Tagged(PlanOf(agent, ids, proposals, orders, snapshot), agent, ids, Claims(proposals))
    decreases |proposals|
  {
    if proposals != [] {
      var n := |proposals| - 1;
      PlanTagged(agent, ids[..n], proposals[..n], orders[..n], snapshot);
      OpsTagged(agent, ids[n], proposals[n], orders[n], snapshot);
      var a := PlanOf(agent, ids[..n], proposals[..n], orders[..n], snapshot);
      var b := OpsFor(agent, ids[n], proposals[n], orders[n], snapshot);
      TagsGrow(a, b, agent, ids, n, Claims(proposals[..n]), Writes(proposals[n]));
    }
  }

  lemma TagsGrow(a: seq<Planned>, b: seq<Planned>, agent: Agent, ids: seq<string>, n: nat, s: set<Slug>, t: set<Slug>)
    requires n < |ids| && Tagged(a, agent, ids[..n], s) && Tagged(b, agent, [ids[n]], t)
    ensures Tagged(a + b, agent, ids, s + t)
  {
    forall i | 0 <= i < |a + b| ensures TaggedAs((a + b)[i], agent, ids, s + t) {
      if i < |a| {
        assert TaggedAs(a[i], agent, ids[..n], s);
      } else {
        assert TaggedAs(b[i - |a|], agent, [ids[n]], t);
        assert ids[n] in ids;
      }
    }
  }

  lemma TagsUnlike(x: Planned, y: Planned, agent: Agent, a: seq<string>, b: seq<string>, s: set<Slug>, t: set<Slug>)
    requires TaggedAs(x, agent, a, s) && TaggedAs(y, agent, b, t) && s !! t
    requires x.proposalId != y.proposalId && |x.proposalId| == |y.proposalId|
    requires ProposalId(x.proposalId) && ProposalId(y.proposalId)
    ensures Unlike(x, y)
  {
    var u :| x.operation.operationId == OperationId(x.proposalId, u);
    var v :| y.operation.operationId == OperationId(y.proposalId, v);
    IdsDiffer(x.proposalId, u, y.proposalId, v);
  }

  lemma LastIdDiffers(ids: seq<string>, n: nat, x: string)
    requires |ids| == n + 1 && ProposalIds(ids) && x in ids[..n]
    ensures x != ids[n] && |x| == |ids[n]| && ProposalId(x) && ProposalId(ids[n])
  {
    var k :| 0 <= k < n && ids[..n][k] == x;
    assert ids[k] != ids[n] && ids[k] in ids && ids[n] in ids;
  }

  /** Parts tagged with different proposals and disjoint memories have nothing in common. */
  lemma PartsUnlike(a: seq<Planned>, b: seq<Planned>, agent: Agent, ids: seq<string>, n: nat, s: set<Slug>,
        t: set<Slug>)
    requires |ids| == n + 1 && ProposalIds(ids) && s !! t
    requires Tagged(a, agent, ids[..n], s) && Tagged(b, agent, [ids[n]], t)
    ensures forall i, j :: 0 <= i < |a| && 0 <= j < |b| ==> Unlike(a[i], b[j])
  {
    forall i, j | 0 <= i < |a| && 0 <= j < |b| ensures Unlike(a[i], b[j]) {
      PairUnlike(a[i], b[j], agent, ids, n, s, t);
    }
  }

  lemma PairUnlike(x: Planned, y: Planned, agent: Agent, ids: seq<string>, n: nat, s: set<Slug>, t: set<Slug>)
    requires |ids| == n + 1 && ProposalIds(ids) && s !! t
    requires TaggedAs(x, agent, ids[..n], s) && TaggedAs(y, agent, [ids[n]], t)
    ensures Unlike(x, y)
  {
    LastIdDiffers(ids, n, x.proposalId);
    TagsUnlike(x, y, agent, ids[..n], [ids[n]], s, t);
  }

  /** The plan is a plan if its last part is one and the rest is one. */
  lemma LastPart(agent: Agent, ids: seq<string>, proposals: seq<Proposal>, orders: seq<seq<Slug>>, snapshot: Snapshot,
        frozen: Records)
    requires proposals != [] && |ids| == |proposals| && Sorting(proposals, orders) && Known(proposals, snapshot)
    requires Apart(proposals) && ProposalIds(ids)
    ensures var n := |proposals| - 1;
      IsPlan(PlanOf(agent, ids, proposals, orders, snapshot), frozen)
      <==> IsPlan(PlanOf(agent, ids[..n], proposals[..n], orders[..n], snapshot), frozen)
           && IsPlan(OpsFor(agent, ids[n], proposals[n], orders[n], snapshot), frozen)
  {
    var n := |proposals| - 1;
    var a := PlanOf(agent, ids[..n], proposals[..n], orders[..n], snapshot);
    var b := OpsFor(agent, ids[n], proposals[n], orders[n], snapshot);
    LastDisjoint(proposals);
    PlanTagged(agent, ids[..n], proposals[..n], orders[..n], snapshot);
    OpsTagged(agent, ids[n], proposals[n], orders[n], snapshot);
    PartsUnlike(a, b, agent, ids, n, Claims(proposals[..n]), Writes(proposals[n]));
    PlanConcat(a, b, frozen);
  }

  lemma LastDisjoint(proposals: seq<Proposal>)
    requires proposals != [] && Apart(proposals)
    ensures Claims(proposals[..|proposals| - 1]) !! Writes(proposals[|proposals| - 1])
  {
    var n := |proposals| - 1;
    assert proposals == proposals[..n] + [proposals[n]];
    ApartMore(proposals[..n], proposals[n]);
  }

  /**
   * What the validator accepts becomes a plan as the Dream job needs it (each frozen memory written at most once, on
   * the condition of its frozen version, by an operation with an id of its own), if and only if no merge archives a
   * member named `merge`.
   */
  lemma AcceptedIsPlan(agent: Agent, ids: seq<string>, proposals: seq<Proposal>, snapshot: Snapshot, c: Context,
        frozen: Records)
    requires |ids| == |proposals| && Known(proposals, snapshot)
    requires AllGood(proposals, snapshot, c) && Apart(proposals) && SnapshotOf(snapshot, agent, frozen)
    requires ProposalIds(ids)
    ensures IsPlan(Operations(agent, ids, proposals, snapshot), frozen) <==> NoNamedMerge(proposals)
  {
    PartsArePlan(agent, ids, proposals, Orders(proposals), snapshot, c, frozen);
  }

  /** The same for any orders of the archived members, proposal by proposal. */
  lemma {:induction false} PartsArePlan(agent: Agent, ids: seq<string>, proposals: seq<Proposal>,
        orders: seq<seq<Slug>>,
      snapshot: Snapshot, c: Context, frozen: Records)
    requires |ids| == |proposals| && Sorting(proposals, orders) && Known(proposals, snapshot)
    requires AllGood(proposals, snapshot, c) && Apart(proposals) && SnapshotOf(snapshot, agent, frozen)
    requires ProposalIds(ids)
    ensures IsPlan(PlanOf(agent, ids, proposals, orders, snapshot), frozen) <==> NoNamedMerge(proposals)
    decreases |proposals|
  {
    if proposals != [] {
      var n := |proposals| - 1;
      LastPart(agent, ids, proposals, orders, snapshot, frozen);
      FewerParts(ids, proposals, orders, snapshot, c);
      PartsArePlan(agent, ids[..n], proposals[..n], orders[..n], snapshot, c, frozen);
      OpsArePlan(agent, ids[n], proposals[n], orders[n], snapshot, c, frozen);
      NoNamedMore(proposals);
    }
  }

  lemma FewerParts(ids: seq<string>, proposals: seq<Proposal>, orders: seq<seq<Slug>>, snapshot: Snapshot, c: Context)
    requires proposals != [] && |ids| == |proposals| && Sorting(proposals, orders) && Known(proposals, snapshot)
    requires AllGood(proposals, snapshot, c) && Apart(proposals) && ProposalIds(ids)
    ensures var n := |proposals| - 1;
      && Sorting(proposals[..n], orders[..n]) && Known(proposals[..n], snapshot) && AllGood(proposals[..n], snapshot, c)
      && Apart(proposals[..n]) && ProposalIds(ids[..n])
      && Good(proposals[n], snapshot, c) && Others(proposals[n], orders[n])
  {
    var n := |proposals| - 1;
    assert forall i :: 0 <= i < n ==> proposals[..n][i] == proposals[i] && orders[..n][i] == orders[i];
    assert forall a :: a in ids[..n] ==> a in ids;
  }

  lemma NoNamedMore(proposals: seq<Proposal>)
    requires proposals != []
    ensures NoNamedMerge(proposals) <==> NoNamedMerge(proposals[..|proposals| - 1]) && !NamedMerge(proposals[|proposals| - 1])
  {
    var n := |proposals| - 1;
    if NoNamedMerge(proposals[..n]) && !NamedMerge(proposals[n]) {
      forall i | 0 <= i < |proposals| ensures !NamedMerge(proposals[i]) {
        if i < n { assert !NamedMerge(proposals[..n][i]); }
      }
    }
  }

  /** With such a merge, the receipt of the merge passes for that of the archive: a rerun leaves the member active. */
  lemma NamedMergeReceipt(agent: Agent, id: string, p: Proposal, order: seq<Slug>, snapshot: Snapshot)
    requires Others(p, order) && (forall s :: s in order ==> s in snapshot) && NamedMerge(p)
    requires forall s :: s in p.sourceSlugs ==> s in snapshot
    ensures var ops := OpsFor(agent, id, p, order, snapshot);
      exists k :: 0 < k < |ops| && ops[k].operation.change.Archive? && ops[k].operation.slug == "merge"
        && HasReceipt([Receipt(id, ops[0].operation.operationId, p.target, false)], ops[k])
  {
    var ops := OpsFor(agent, id, p, order, snapshot);
    assert "merge" in order;
    var k :| 0 <= k < |order| && order[k] == "merge";
    assert ops[k + 1] == ArchiveOps(agent, id, order, snapshot)[k];
    var r := Receipt(id, ops[0].operation.operationId, p.target, false);
    assert r in [r] && r.operationId == ops[k + 1].operation.operationId;
  }

  /** What a merge leaves behind: the target, active, with every key of its members' sources and every link that left the group. */
  lemma MergeOutcome(agent: Agent, id: string, p: Proposal, snapshot: Snapshot, c: Context, frozen: Records,
        now: Instant)
    requires p.Merge? && Good(p, snapshot, c) && SnapshotOf(snapshot, agent, frozen)
    ensures forall s :: s in p.sourceSlugs ==> s in snapshot
    ensures var op := MergeOp(agent, id, p, Dedup(MemberSources(p.sourceSlugs, snapshot))).operation;
      var after := Effect(frozen, op, now);
      && after.Some? && (agent, p.target) in after.value
      && var m := after.value[(agent, p.target)];
         && m.status == Active && m.kind == p.newKind && m.description == p.newDescription && m.content == p.newContent
         && KeySet(m.sources) == KeySet(MemberSources(p.sourceSlugs, snapshot))
         && forall s, l :: s in p.sourceSlugs && l in c.links(snapshot[s].content) && l !in p.sourceSlugs ==> l in c.links(m.content)
  {
    assert Member(p, p.target, snapshot);
    forall s | s in p.sourceSlugs ensures s in snapshot { assert Member(p, s, snapshot); }
    DedupUnion(MemberSources(p.sourceSlugs, snapshot));
  }
}
