/** Clustering of near-duplicates among the expanded memories. */
module RecallOrder {
  import opened Texts
  import opened RecallGraph

  datatype Candidate = Candidate(
    slug: Slug, typeFit: real, baseScore: real, queryRelevance: real, graphProximity: real,
    standardTokenCost: nat, compactTokenCost: nat, quotaGroup: string,
    directKeyword: bool, directVector: bool,
    directionEvidence: Direction, mergedSlugs: seq<Slug>)

  // ------------------------------------------------------------ rank keys

  /** A sort key: scores compared in turn, the larger first, then the slug. */
  datatype Rank = Rank(scores: seq<real>, slug: Slug)

  predicate Prefers(a: Rank, b: Rank)
    requires |a.scores| == |b.scores|
    decreases |a.scores|
  {
    if a.scores == [] then Less(a.slug, b.slug)
    else if a.scores[0] != b.scores[0] then a.scores[0] > b.scores[0]
    else Prefers(Rank(a.scores[1..], a.slug), Rank(b.scores[1..], b.slug))
  }

  lemma {:induction false} PrefersTotal(a: Rank, b: Rank)
    requires |a.scores| == |b.scores|
    ensures a.slug != b.slug ==> Prefers(a, b) || Prefers(b, a)
    ensures !(Prefers(a, b) && Prefers(b, a))
    decreases |a.scores|
  {
    if a.scores == [] {
      Trichotomy(a.slug, b.slug);
    } else {
      PrefersTotal(Rank(a.scores[1..], a.slug), Rank(b.scores[1..], b.slug));
    }
  }

  lemma {:induction false} PrefersTransitive(a: Rank, b: Rank, c: Rank)
    requires |a.scores| == |b.scores| == |c.scores|
    requires Prefers(a, b) && Prefers(b, c)
    ensures Prefers(a, c)
    decreases |a.scores|
  {
    if a.scores == [] {
      Transitive(a.slug, b.slug, c.slug);
    } else if a.scores[0] == b.scores[0] == c.scores[0] {
      PrefersTransitive(Rank(a.scores[1..], a.slug), Rank(b.scores[1..], b.slug), Rank(c.scores[1..], c.slug));
    }
  }

  /** By base score, as the clusters are formed. */
  function ScoreRank(c: Candidate): (r: Rank)
    ensures |r.scores| == 1
  {
    Rank([c.baseScore], c.slug)
  }

  /** By type fit, base score and cost, as a cluster's representative is chosen. */
  function FitRank(c: Candidate): (r: Rank)
    ensures |r.scores| == 3
  {
    Rank([c.typeFit, c.baseScore, -(c.standardTokenCost as real)], c.slug)
  }

  lemma LexStep(x: Rank, y: Rank)
    requires |x.scores| == |y.scores| > 0
    ensures Prefers(x, y) <==>
      if x.scores[0] != y.scores[0] then x.scores[0] > y.scores[0]
      else Prefers(Rank(x.scores[1..], x.slug), Rank(y.scores[1..], y.slug))
  {
  }

  /** Clusters are formed best score first, and slug by slug among equals. */
  lemma ScoreOrder(a: Candidate, b: Candidate)
    ensures Prefers(ScoreRank(a), ScoreRank(b)) <==>
      a.baseScore > b.baseScore || (a.baseScore == b.baseScore && Less(a.slug, b.slug))
  {
    assert Rank(ScoreRank(a).scores[1..], a.slug) == Rank([], a.slug) && Rank(ScoreRank(b).scores[1..], b.slug) == Rank([], b.slug);
  }

  /** A representative is the one that fits best, then scores best, then costs least, then comes first by slug. */
  lemma FitOrder(a: Candidate, b: Candidate)
    ensures Prefers(FitRank(a), FitRank(b)) <==>
      || a.typeFit > b.typeFit
      || (a.typeFit == b.typeFit
          && (a.baseScore > b.baseScore
              || (a.baseScore == b.baseScore
                  && (a.standardTokenCost < b.standardTokenCost
                      || (a.standardTokenCost == b.standardTokenCost && Less(a.slug, b.slug))))))
  {
    var x, y := FitRank(a), FitRank(b);
    LexStep(x, y);
    var x1, y1 := Rank(x.scores[1..], x.slug), Rank(y.scores[1..], y.slug);
    LexStep(x1, y1);
    var x2, y2 := Rank(x1.scores[1..], x.slug), Rank(y1.scores[1..], y.slug);
    LexStep(x2, y2);
    assert x2.scores[1..] == [] && y2.scores[1..] == [];
  }

  ghost predicate DistinctSlugs(s: seq<Candidate>) {
    forall i, j :: 0 <= i < j < |s| ==> s[i].slug != s[j].slug
  }

  // ------------------------------------------------------------- sorting

  ghost predicate ByScore(s: seq<Candidate>) {
    forall i, j :: 0 <= i < j < |s| ==> Prefers(ScoreRank(s[i]), ScoreRank(s[j]))
  }

  method InsertByScore(s: seq<Candidate>, c: Candidate) returns (r: seq<Candidate>)
    requires ByScore(s) && forall i :: 0 <= i < |s| ==> s[i].slug != c.slug
    ensures ByScore(r) && multiset(r) == multiset(s) + multiset{c}
  {
    var i := 0;
    while i < |s| && Prefers(ScoreRank(s[i]), ScoreRank(c))
      invariant 0 <= i <= |s|
      invariant forall j :: 0 <= j < i ==> Prefers(ScoreRank(s[j]), ScoreRank(c))
    {
      i := i + 1;
    }
    forall j | i <= j < |s| ensures Prefers(ScoreRank(c), ScoreRank(s[j])) {
      PrefersTotal(ScoreRank(c), ScoreRank(s[i]));
      if i < j { PrefersTransitive(ScoreRank(c), ScoreRank(s[i]), ScoreRank(s[j])); }
    }
    r := s[..i] + [c] + s[i..];
    assert s == s[..i] + s[i..];
  }

  method OrderByScore(candidates: seq<Candidate>) returns (ordered: seq<Candidate>)
    requires DistinctSlugs(candidates)
    ensures ByScore(ordered) && multiset(ordered) == multiset(candidates)
  {
    ordered := [];
    for i := 0 to |candidates|
      invariant ByScore(ordered) && multiset(ordered) == multiset(candidates[..i])
    {
      forall j | 0 <= j < |ordered| ensures ordered[j].slug != candidates[i].slug {
        assert ordered[j] in multiset(ordered);
        assert ordered[j] in candidates[..i];
      }
      ordered := InsertByScore(ordered, candidates[i]);
      assert candidates[..i + 1] == candidates[..i] + [candidates[i]];
    }
    assert candidates[..|candidates|] == candidates;
  }

  // ----------------------------------------------------------- clustering

  datatype Cluster = Cluster(leader: Candidate, members: seq<Candidate>)

  type Similar = (Candidate, Candidate) -> bool

  /** All members of all clusters, in cluster order. */
  ghost function AllMembers(clusters: seq<Cluster>): multiset<Candidate> {
    if clusters == [] then multiset{} else multiset(clusters[0].members) + AllMembers(clusters[1..])
  }

  /** A cluster opens with its leader, and everything else in it resembles the leader. */
  ghost predicate LedBy(cluster: Cluster, same: Similar) {
    && cluster.members != [] && cluster.members[0] == cluster.leader
    && forall i :: 0 < i < |cluster.members| ==> same(cluster.leader, cluster.members[i])
  }

  /** The leaders stand apart, and no member resembles the leader of an earlier cluster. */
  ghost predicate Clustered(clusters: seq<Cluster>, same: Similar) {
    && (forall i :: 0 <= i < |clusters| ==> LedBy(clusters[i], same))
    && (forall i, j, m :: 0 <= i < j < |clusters| && m in clusters[j].members ==> !same(clusters[i].leader, m))
  }

  /** Members stand in the order of their scores, and so do the leaders: each leads as the best of its cluster. */
  ghost predicate BestFirst(clusters: seq<Cluster>) {
    && (forall i :: 0 <= i < |clusters| ==> ByScore(clusters[i].members))
    && forall i, j :: 0 <= i < j < |clusters| ==> Prefers(ScoreRank(clusters[i].leader), ScoreRank(clusters[j].leader))
  }

  lemma {:induction false} AllMembersAppend(clusters: seq<Cluster>, c: Cluster)
    ensures AllMembers(clusters + [c]) == AllMembers(clusters) + multiset(c.members)
  {
    if clusters == [] {
      assert [c][1..] == [];
    } else {
      assert (clusters + [c])[1..] == clusters[1..] + [c];
      AllMembersAppend(clusters[1..], c);
    }
  }

  lemma {:induction false} AllMembersJoin(clusters: seq<Cluster>, k: nat, c: Candidate)
    requires k < |clusters|
    ensures AllMembers(clusters[k := Cluster(clusters[k].leader, clusters[k].members + [c])])
         == AllMembers(clusters) + multiset{c}
  {
    var more := clusters[k := Cluster(clusters[k].leader, clusters[k].members + [c])];
    if k > 0 {
      assert more[1..] == clusters[1..][k - 1 := Cluster(clusters[k].leader, clusters[k].members + [c])];
      AllMembersJoin(clusters[1..], k - 1, c);
    } else {
      assert more[1..] == clusters[1..];
    }
  }

  ghost predicate FirstSimilar(clusters: seq<Cluster>, c: Candidate, same: Similar, k: nat) {
    && k <= |clusters|
    && (forall j :: 0 <= j < k ==> !same(clusters[j].leader, c))
    && (k < |clusters| ==> same(clusters[k].leader, c))
  }

  method FindCluster(clusters: seq<Cluster>, c: Candidate, same: Similar) returns (k: nat)
    ensures FirstSimilar(clusters, c, same, k)
  {
    k := 0;
    while k < |clusters| && !same(clusters[k].leader, c)
      invariant k <= |clusters|
      invariant forall j :: 0 <= j < k ==> !same(clusters[j].leader, c)
    {
      k := k + 1;
    }
  }

  function Place(clusters: seq<Cluster>, c: Candidate, k: nat): seq<Cluster>
    requires k <= |clusters|
  {
    if k < |clusters| then clusters[k := Cluster(clusters[k].leader, clusters[k].members + [c])]
    else clusters + [Cluster(c, [c])]
  }

  lemma PlaceClustered(clusters: seq<Cluster>, c: Candidate, same: Similar, k: nat)
    requires Clustered(clusters, same) && FirstSimilar(clusters, c, same, k)
    ensures Clustered(Place(clusters, c, k), same)
  {
    var r := Place(clusters, c, k);
    forall i | 0 <= i < |r| ensures LedBy(r[i], same) {
      if i < |clusters| { assert LedBy(clusters[i], same); }
    }
    forall i, j, m | 0 <= i < j < |r| && m in r[j].members ensures !same(r[i].leader, m) {
      assert r[i].leader == clusters[i].leader;
      if j < |clusters| && m in clusters[j].members {
      } else {
        assert m == c && i < k;
      }
    }
  }

  lemma PlaceMembers(clusters: seq<Cluster>, c: Candidate, k: nat)
    requires k <= |clusters|
    ensures AllMembers(Place(clusters, c, k)) == AllMembers(clusters) + multiset{c}
  {
    if k < |clusters| { AllMembersJoin(clusters, k, c); } else { AllMembersAppend(clusters, Cluster(c, [c])); }
  }

  /** Everything placed so far is preferred to `c`. */
  ghost predicate BeforeAll(clusters: seq<Cluster>, c: Candidate) {
    forall i, m :: 0 <= i < |clusters| && m in clusters[i].members ==> Prefers(ScoreRank(m), ScoreRank(c))
  }

  lemma PlaceBestFirst(clusters: seq<Cluster>, c: Candidate, same: Similar, k: nat)
    requires Clustered(clusters, same) && BestFirst(clusters) && BeforeAll(clusters, c) && k <= |clusters|
    ensures BestFirst(Place(clusters, c, k))
  {
    var r := Place(clusters, c, k);
    forall i | 0 <= i < |r| ensures ByScore(r[i].members) {
      if i < |clusters| { assert ByScore(clusters[i].members); }
    }
    forall i, j | 0 <= i < j < |r| ensures Prefers(ScoreRank(r[i].leader), ScoreRank(r[j].leader)) {
      assert LedBy(clusters[i], same) && clusters[i].members[0] in clusters[i].members;
    }
  }

  lemma PrefixBefore(ordered: seq<Candidate>, clusters: seq<Cluster>, n: nat)
    requires ByScore(ordered) && n < |ordered| && AllMembers(clusters) == multiset(ordered[..n])
    ensures BeforeAll(clusters, ordered[n])
  {
    forall i, m | 0 <= i < |clusters| && m in clusters[i].members ensures Prefers(ScoreRank(m), ScoreRank(ordered[n])) {
      InAllMembers(clusters, i);
      assert m in multiset(ordered[..n]);
      assert m in ordered[..n];
    }
  }

  /** The clustering loop: each candidate, best first, joins the first leader it resembles, or leads a new cluster. */
  method FormClusters(ordered: seq<Candidate>, same: Similar) returns (clusters: seq<Cluster>)
    requires ByScore(ordered)
    ensures Clustered(clusters, same) && BestFirst(clusters)
    ensures AllMembers(clusters) == multiset(ordered)
  {
    clusters := [];
    for i := 0 to |ordered|
      invariant Clustered(clusters, same) && BestFirst(clusters)
      invariant AllMembers(clusters) == multiset(ordered[..i])
    {
      var c := ordered[i];
      PrefixGrows(ordered, i);
      PrefixBefore(ordered, clusters, i);
      var k := FindCluster(clusters, c, same);
      PlaceClustered(clusters, c, same, k);
      PlaceBestFirst(clusters, c, same, k);
      PlaceMembers(clusters, c, k);
      clusters := Place(clusters, c, k);
    }
    assert ordered[..|ordered|] == ordered;
  }

  lemma SameHead(s: seq<Candidate>, t: seq<Candidate>)
    requires ByScore(s) && ByScore(t) && multiset(s) == multiset(t) && s != [] && t != []
    ensures s[0] == t[0]
  {
    assert s[0] in multiset(t) && t[0] in multiset(s);
    var i :| 0 <= i < |t| && t[i] == s[0];
    var j :| 0 <= j < |s| && s[j] == t[0];
    PrefersTotal(ScoreRank(s[0]), ScoreRank(t[0]));
  }

  lemma HeadAndRest(s: seq<Candidate>)
    requires ByScore(s) && s != []
    ensures s == [s[0]] + s[1..] && ByScore(s[1..]) && multiset(s[1..]) == multiset(s) - multiset{s[0]}
  {
    assert s == [s[0]] + s[1..];
  }

  lemma SameSize(s: seq<Candidate>, t: seq<Candidate>)
    requires multiset(s) == multiset(t)
    ensures |s| == |t|
  {
    assert |multiset(s)| == |s| && |multiset(t)| == |t|;
  }

  lemma {:induction false} SortUnique(s: seq<Candidate>, t: seq<Candidate>)
    requires ByScore(s) && ByScore(t) && multiset(s) == multiset(t)
    ensures s == t
  {
    SameSize(s, t);
    if s != [] {
      SameHead(s, t);
      HeadAndRest(s);
      HeadAndRest(t);
      SortUnique(s[1..], t[1..]);
    }
  }

  /** The first leader is preferred to all others. */
  lemma FirstIsBest(clusters: seq<Cluster>, same: Similar, c: Candidate)
    requires Clustered(clusters, same) && BestFirst(clusters) && c in AllMembers(clusters)
    ensures clusters != [] && (c == clusters[0].leader || Prefers(ScoreRank(clusters[0].leader), ScoreRank(c)))
  {
    var i := SomeCluster(clusters, c);
    var j :| 0 <= j < |clusters[i].members| && clusters[i].members[j] == c;
    assert LedBy(clusters[i], same) && ByScore(clusters[i].members);
    if i > 0 && j > 0 {
      PrefersTransitive(ScoreRank(clusters[0].leader), ScoreRank(clusters[i].leader), ScoreRank(c));
    }
  }

  ghost predicate NoneTwice(candidates: multiset<Candidate>) { forall c :: candidates[c] <= 1 }

  /** The first cluster is its leader and everything that resembles it. */
  lemma FirstCluster(clusters: seq<Cluster>, same: Similar, c: Candidate)
    requires Clustered(clusters, same) && clusters != [] && NoneTwice(AllMembers(clusters))
    ensures multiset(clusters[0].members)[c] == if c in AllMembers(clusters)
      && (c == clusters[0].leader || same(clusters[0].leader, c)) then 1 else 0
  {
    assert AllMembers(clusters) == multiset(clusters[0].members) + AllMembers(clusters[1..]);
    assert LedBy(clusters[0], same);
    if c in clusters[0].members {
      var j :| 0 <= j < |clusters[0].members| && clusters[0].members[j] == c;
    } else if c in AllMembers(clusters[1..]) {
      var i := SomeCluster(clusters[1..], c);
      assert c in clusters[i + 1].members;
      assert clusters[0].leader in multiset(clusters[0].members);
    }
  }

  lemma RestClustered(clusters: seq<Cluster>, same: Similar)
    requires Clustered(clusters, same) && BestFirst(clusters) && clusters != []
    ensures Clustered(clusters[1..], same) && BestFirst(clusters[1..])
  {
    forall i | 0 <= i < |clusters| - 1 ensures LedBy(clusters[1..][i], same) && ByScore(clusters[1..][i].members) {
      assert LedBy(clusters[i + 1], same) && ByScore(clusters[i + 1].members);
    }
  }

  lemma {:induction false} SameClusters(a: seq<Cluster>, b: seq<Cluster>, same: Similar)
    requires Clustered(a, same) && BestFirst(a) && Clustered(b, same) && BestFirst(b)
    requires AllMembers(a) == AllMembers(b) && NoneTwice(AllMembers(a))
    ensures a == b
  {
    if a == [] || b == [] {
      NoneEmpty(a, same);
      NoneEmpty(b, same);
    } else {
      SameFirst(a, b, same);
      RestClustered(a, same);
      RestClustered(b, same);
      assert AllMembers(a[1..]) == AllMembers(a) - multiset(a[0].members);
      assert AllMembers(b[1..]) == AllMembers(b) - multiset(b[0].members);
      SameClusters(a[1..], b[1..], same);
      assert a == [a[0]] + a[1..] && b == [b[0]] + b[1..];
    }
  }

  /** The clustering is determined by the candidates: their order and the loop leave no choice. */
  lemma ClusteringUnique(candidates: seq<Candidate>, a: seq<Cluster>, b: seq<Cluster>, same: Similar)
    requires DistinctSlugs(candidates) && AllMembers(a) == AllMembers(b) == multiset(candidates)
    requires Clustered(a, same) && BestFirst(a) && Clustered(b, same) && BestFirst(b)
    ensures a == b
  {
    forall c ensures multiset(candidates)[c] <= 1 {
      if c in multiset(candidates) { DistinctOnce(candidates, c); }
    }
    SameClusters(a, b, same);
  }

  lemma NoneEmpty(clusters: seq<Cluster>, same: Similar)
    requires Clustered(clusters, same)
    ensures AllMembers(clusters) == multiset{} <==> clusters == []
  {
    if clusters != [] { assert LedBy(clusters[0], same) && clusters[0].leader in multiset(clusters[0].members); }
  }

  lemma SameFirst(a: seq<Cluster>, b: seq<Cluster>, same: Similar)
    requires a != [] && Clustered(a, same) && BestFirst(a) && b != [] && Clustered(b, same) && BestFirst(b)
    requires AllMembers(a) == AllMembers(b) && NoneTwice(AllMembers(a))
    ensures a[0] == b[0]
  {
    assert LedBy(a[0], same) && LedBy(b[0], same);
    assert a[0].leader in multiset(a[0].members) && b[0].leader in multiset(b[0].members);
    FirstIsBest(a, same, b[0].leader);
    FirstIsBest(b, same, a[0].leader);
    PrefersTotal(ScoreRank(a[0].leader), ScoreRank(b[0].leader));
    forall c ensures multiset(a[0].members)[c] == multiset(b[0].members)[c] {
      FirstCluster(a, same, c);
      FirstCluster(b, same, c);
    }
    SortUnique(a[0].members, b[0].members);
  }

  // ------------------------------------------------- one candidate per cluster

  ghost predicate NoWorse(a: Evidence, b: Evidence) {
    a.pathStrength > b.pathStrength || (a.pathStrength == b.pathStrength && a.hop <= b.hop)
  }

  /** `evidence` has every direction of the members and nothing else, each with the best of their entries. */
  ghost predicate BestUnion(evidence: Direction, members: seq<Candidate>) {
    && (forall m, d :: m in members && d in m.directionEvidence ==>
         d in evidence && NoWorse(evidence[d], m.directionEvidence[d]))
    && (forall d :: d in evidence ==>
         exists m :: m in members && d in m.directionEvidence && m.directionEvidence[d] == evidence[d])
  }

  /** `after` is `before` joined by the member's entries, the better kept. */
  ghost predicate Merged(before: Direction, after: Direction, member: Direction) {
    && (forall d :: d in before ==> d in after && NoWorse(after[d], before[d]))
    && (forall d :: d in member ==> d in after && NoWorse(after[d], member[d]))
    && (forall d :: d in after ==>
         (d in before && after[d] == before[d]) || (d in member && after[d] == member[d]))
  }

  method MergeMember(before: Direction, member: Direction) returns (after: Direction)
    ensures Merged(before, after, member)
  {
    after := before;
    var left := member.Keys;
    while left != {}
      invariant left <= member.Keys
      invariant forall d :: d in before ==> d in after && NoWorse(after[d], before[d])
      invariant forall d :: d in member && d !in left ==> d in after && NoWorse(after[d], member[d])
      invariant forall d :: d in after ==>
        (d in before && after[d] == before[d]) || (d in member && after[d] == member[d])
    {
      var d :| d in left;
      after := Improve(after, d, member[d]);
      left := left - {d};
    }
  }

  method MergeEvidence(members: seq<Candidate>) returns (evidence: Direction)
    ensures BestUnion(evidence, members)
  {
    evidence := map[];
    for i := 0 to |members|
      invariant BestUnion(evidence, members[..i])
    {
      assert members[..i + 1] == members[..i] + [members[i]];
      ghost var before := evidence;
      evidence := MergeMember(evidence, members[i].directionEvidence);
      BestUnionStep(before, evidence, members[..i], members[i]);
    }
    assert members[..|members|] == members;
  }

  lemma BestUnionStep(before: Direction, after: Direction, members: seq<Candidate>, member: Candidate)
    requires BestUnion(before, members)
    requires Merged(before, after, member.directionEvidence)
    ensures BestUnion(after, members + [member])
  {
    var more := members + [member];
    forall d | d in after
      ensures exists m :: m in more && d in m.directionEvidence && m.directionEvidence[d] == after[d]
    {
      if d in before && after[d] == before[d] {
        var m :| m in members && d in m.directionEvidence && m.directionEvidence[d] == before[d];
        assert m in more;
      } else {
        assert member in more;
      }
    }
  }

  /** `best` is a member no other member is preferred to. */
  ghost predicate Representative(best: Candidate, members: seq<Candidate>) {
    best in members && forall m :: m in members ==> !Prefers(FitRank(m), FitRank(best))
  }

  method ChooseRepresentative(members: seq<Candidate>) returns (best: Candidate)
    requires members != []
    ensures Representative(best, members)
  {
    best := members[0];
    PrefersTotal(FitRank(best), FitRank(best));
    for i := 1 to |members|
      invariant Representative(best, members[..i])
    {
      var c := members[i];
      assert members[..i + 1] == members[..i] + [c];
      PrefersTotal(FitRank(c), FitRank(best));
      PrefersTotal(FitRank(c), FitRank(c));
      if Prefers(FitRank(c), FitRank(best)) {
        forall m | m in members[..i] ensures !Prefers(FitRank(m), FitRank(c)) {
          if Prefers(FitRank(m), FitRank(c)) { PrefersTransitive(FitRank(m), FitRank(c), FitRank(best)); }
        }
        best := c;
      }
    }
    assert members[..|members|] == members;
  }

  /** What a cluster is reduced to: its representative, re-scored for the directions of the whole cluster. */
  ghost predicate Summary(c: Candidate, best: Candidate, members: seq<Candidate>, rescore: (Candidate, nat) -> real) {
    && Representative(best, members)
    && BestUnion(c.directionEvidence, members)
    && (c.directKeyword <==> exists m :: m in members && m.directKeyword)
    && (c.directVector <==> exists m :: m in members && m.directVector)
    && Sorted(c.mergedSlugs) && (forall x :: x in c.mergedSlugs <==> exists m :: m in members && m.slug == x)
    && c == best.(directionEvidence := c.directionEvidence, directKeyword := c.directKeyword,
                  directVector := c.directVector, mergedSlugs := c.mergedSlugs,
                  baseScore := rescore(best, |c.directionEvidence|))
  }

  method Summarize(members: seq<Candidate>, rescore: (Candidate, nat) -> real) returns (c: Candidate, best: Candidate)
    requires members != []
    ensures Summary(c, best, members, rescore)
  {
    best := ChooseRepresentative(members);
    var evidence := MergeEvidence(members);
    var merged := SortedKeys(set m | m in members :: m.slug);
    c := best.(directionEvidence := evidence,
               directKeyword := exists m :: m in members && m.directKeyword,
               directVector := exists m :: m in members && m.directVector,
               mergedSlugs := merged,
               baseScore := rescore(best, |evidence|));
  }

  lemma {:induction false} InAllMembers(clusters: seq<Cluster>, i: nat)
    requires i < |clusters|
    ensures multiset(clusters[i].members) <= AllMembers(clusters)
  {
    if i > 0 { InAllMembers(clusters[1..], i - 1); }
  }

  lemma {:induction false} TwoInAllMembers(clusters: seq<Cluster>, i: nat, j: nat)
    requires i < j < |clusters|
    ensures multiset(clusters[i].members) + multiset(clusters[j].members) <= AllMembers(clusters)
  {
    if i == 0 { InAllMembers(clusters[1..], j - 1); } else { TwoInAllMembers(clusters[1..], i - 1, j - 1); }
  }

  lemma {:induction false} SomeCluster(clusters: seq<Cluster>, c: Candidate) returns (i: nat)
    requires c in AllMembers(clusters)
    ensures i < |clusters| && c in clusters[i].members
  {
    if c in clusters[0].members {
      i := 0;
    } else {
      assert c in AllMembers(clusters[1..]);
      i := SomeCluster(clusters[1..], c);
      i := i + 1;
    }
  }

  lemma ClustersApart(clusters: seq<Cluster>, candidates: seq<Candidate>, i: nat, j: nat, a: Candidate, b: Candidate)
    requires AllMembers(clusters) == multiset(candidates) && DistinctSlugs(candidates)
    requires i < j < |clusters| && a in clusters[i].members && b in clusters[j].members
    ensures a.slug != b.slug
  {
    TwoInAllMembers(clusters, i, j);
    assert a in multiset(candidates) && b in multiset(candidates);
    assert a in candidates && b in candidates;
    DistinctOnce(candidates, a);
  }

  lemma {:induction false} DistinctOnce(candidates: seq<Candidate>, a: Candidate)
    requires DistinctSlugs(candidates) && a in candidates
    ensures multiset(candidates)[a] == 1
  {
    var rest := candidates[1..];
    assert candidates == [candidates[0]] + rest;
    if a == candidates[0] {
      assert a !in rest;
    } else {
      DistinctOnce(rest, a);
    }
  }

  /** The slugs of the results' clusters partition the slugs of the candidates. */
  ghost predicate Partitions(results: seq<Candidate>, candidates: seq<Candidate>) {
    && (forall c :: c in candidates ==> exists i :: 0 <= i < |results| && c.slug in results[i].mergedSlugs)
    && (forall i, x :: 0 <= i < |results| && x in results[i].mergedSlugs ==> exists c :: c in candidates && c.slug == x)
    && (forall i, j, x :: 0 <= i < j < |results| && x in results[i].mergedSlugs ==> x !in results[j].mergedSlugs)
    && (forall i :: 0 <= i < |results| ==> results[i].slug in results[i].mergedSlugs)
  }

  /** `deduplicate`: nothing is lost, and each result stands for its whole cluster. */
  method Deduplicate(candidates: seq<Candidate>, same: Similar, rescore: (Candidate, nat) -> real)
    returns (clusters: seq<Cluster>, representatives: seq<Candidate>, results: seq<Candidate>)
    requires DistinctSlugs(candidates)
    ensures Clustered(clusters, same) && BestFirst(clusters) && AllMembers(clusters) == multiset(candidates)
    ensures Summaries(clusters, representatives, results, rescore)
    ensures Partitions(results, candidates) && DistinctSlugs(results)
  {
    var ordered := OrderByScore(candidates);
    clusters := FormClusters(ordered, same);
    forall i | 0 <= i < |clusters| ensures clusters[i].members != [] { assert LedBy(clusters[i], same); }
    representatives, results := SummarizeAll(clusters, rescore);
    DeduplicatePartitions(candidates, clusters, representatives, results, rescore);
  }

  method SummarizeAll(clusters: seq<Cluster>, rescore: (Candidate, nat) -> real)
    returns (representatives: seq<Candidate>, results: seq<Candidate>)
    requires forall i :: 0 <= i < |clusters| ==> clusters[i].members != []
    ensures Summaries(clusters, representatives, results, rescore)
  {
    representatives, results := [], [];
    for i := 0 to |clusters|
      invariant |results| == |representatives| == i
      invariant forall j :: 0 <= j < i ==> Summary(results[j], representatives[j], clusters[j].members, rescore)
    {
      var c, best := Summarize(clusters[i].members, rescore);
      representatives, results := representatives + [best], results + [c];
    }
  }

  ghost predicate Summaries(clusters: seq<Cluster>, representatives: seq<Candidate>, results: seq<Candidate>,
                            rescore: (Candidate, nat) -> real)
  {
    && |results| == |clusters| == |representatives|
    && forall i :: 0 <= i < |results| ==> Summary(results[i], representatives[i], clusters[i].members, rescore)
  }

  lemma MergedSlug(clusters: seq<Cluster>, representatives: seq<Candidate>, results: seq<Candidate>,
                   rescore: (Candidate, nat) -> real, i: nat, x: Slug)
    requires Summaries(clusters, representatives, results, rescore) && i < |results|
    ensures x in results[i].mergedSlugs <==> exists m :: m in clusters[i].members && m.slug == x
    ensures results[i].slug in results[i].mergedSlugs
  {
    assert Summary(results[i], representatives[i], clusters[i].members, rescore);
  }

  lemma MergedKnown(candidates: seq<Candidate>, clusters: seq<Cluster>, representatives: seq<Candidate>,
        results: seq<Candidate>,
                    rescore: (Candidate, nat) -> real, i: nat, x: Slug)
    requires Summaries(clusters, representatives, results, rescore) && AllMembers(clusters) == multiset(candidates)
    requires i < |results| && x in results[i].mergedSlugs
    ensures exists c :: c in candidates && c.slug == x
  {
    MergedSlug(clusters, representatives, results, rescore, i, x);
    var m :| m in clusters[i].members && m.slug == x;
    InAllMembers(clusters, i);
    assert m in multiset(candidates);
  }

  lemma MergedApart(candidates: seq<Candidate>, clusters: seq<Cluster>, representatives: seq<Candidate>,
        results: seq<Candidate>,
                    rescore: (Candidate, nat) -> real, i: nat, j: nat, x: Slug)
    requires Summaries(clusters, representatives, results, rescore)
    requires DistinctSlugs(candidates) && AllMembers(clusters) == multiset(candidates)
    requires i < j < |results| && x in results[i].mergedSlugs
    ensures x !in results[j].mergedSlugs
  {
    MergedSlug(clusters, representatives, results, rescore, i, x);
    MergedSlug(clusters, representatives, results, rescore, j, x);
    if x in results[j].mergedSlugs {
      var a :| a in clusters[i].members && a.slug == x;
      var b :| b in clusters[j].members && b.slug == x;
      ClustersApart(clusters, candidates, i, j, a, b);
    }
  }

  lemma MergedCovers(candidates: seq<Candidate>, clusters: seq<Cluster>, representatives: seq<Candidate>,
        results: seq<Candidate>,
                     rescore: (Candidate, nat) -> real, c: Candidate)
    requires Summaries(clusters, representatives, results, rescore) && AllMembers(clusters) == multiset(candidates) && c in candidates
    ensures exists i :: 0 <= i < |results| && c.slug in results[i].mergedSlugs
  {
    assert c in multiset(candidates);
    var i := SomeCluster(clusters, c);
    MergedSlug(clusters, representatives, results, rescore, i, c.slug);
  }

  lemma DeduplicatePartitions(candidates: seq<Candidate>, clusters: seq<Cluster>, representatives: seq<Candidate>,
        results: seq<Candidate>,
                              rescore: (Candidate, nat) -> real)
    requires Summaries(clusters, representatives, results, rescore)
    requires DistinctSlugs(candidates) && AllMembers(clusters) == multiset(candidates)
    ensures Partitions(results, candidates) && DistinctSlugs(results)
  {
    forall c | c in candidates ensures exists i :: 0 <= i < |results| && c.slug in results[i].mergedSlugs {
      MergedCovers(candidates, clusters, representatives, results, rescore, c);
    }
    forall i, x | 0 <= i < |results| && x in results[i].mergedSlugs
      ensures exists c :: c in candidates && c.slug == x
    {
      MergedKnown(candidates, clusters, representatives, results, rescore, i, x);
    }
    forall i, j, x | 0 <= i < j < |results| && x in results[i].mergedSlugs ensures x !in results[j].mergedSlugs {
      MergedApart(candidates, clusters, representatives, results, rescore, i, j, x);
    }
    forall i | 0 <= i < |results| ensures results[i].slug in results[i].mergedSlugs {
      MergedSlug(clusters, representatives, results, rescore, i, results[i].slug);
    }
    forall i, j | 0 <= i < j < |results| ensures results[i].slug != results[j].slug {
      assert results[i].slug in results[i].mergedSlugs && results[j].slug in results[j].mergedSlugs;
    }
  }
}
