/** Greedy re-ranking of the deduplicated memories. */
module RecallRank {
  import opened Texts
  import opened RecallGraph
  import opened RecallOrder

  // ---------------------------------------------------------- re-ranking

  datatype Penalties = Penalties(
    redundancyStart: real, redundancyCap: real, cosineThreshold: real,
    softQuotaScale: real, softQuotaCap: real, cosine: (Slug, Slug) -> real)

  function Min(a: real, b: real): real { if a < b then a else b }

  function Used(ordered: seq<Candidate>): nat {
    if ordered == [] then 0 else Used(ordered[..|ordered| - 1]) + ordered[|ordered| - 1].standardTokenCost
  }

  function GroupUsed(ordered: seq<Candidate>, group: string): nat {
    if ordered == [] then 0
    else GroupUsed(ordered[..|ordered| - 1], group)
         + if ordered[|ordered| - 1].quotaGroup == group then ordered[|ordered| - 1].standardTokenCost else 0
  }

  /** The closest of the memories already ordered. */
  function Similarity(slug: Slug, ordered: seq<Candidate>, cosine: (Slug, Slug) -> real): real {
    if ordered == [] then 0.0
    else Max(Similarity(slug, ordered[..|ordered| - 1], cosine), cosine(slug, ordered[|ordered| - 1].slug))
  }

  /** How much of the cap a similarity costs: nothing up to the start, its square on the way to the threshold. */
  function RawRedundancy(similarity: real, p: Penalties): real {
    if similarity <= p.redundancyStart then 0.0
    else if p.cosineThreshold == p.redundancyStart then p.redundancyCap
    else
      var scaled := (similarity - p.redundancyStart) / (p.cosineThreshold - p.redundancyStart);
      Min(p.redundancyCap, p.redundancyCap * (scaled * scaled))
  }

  function Redundancy(similarity: real, p: Penalties): real { Round6(RawRedundancy(similarity, p)) }

  /** The group's share of the tokens, with this candidate. */
  function Share(groupTokens: nat, used: nat, cost: nat): real {
    if used + cost == 0 then 0.0 else ((groupTokens + cost) as real) / ((used + cost) as real)
  }

  /** The soft quota: how far the share would exceed its target. */
  function RawQuota(share: real, target: real, p: Penalties): real {
    Min(p.softQuotaCap, p.softQuotaScale * Max(0.0, share - target))
  }

  function QuotaPenalty(groupTokens: nat, used: nat, cost: nat, target: real, p: Penalties): real {
    Round6(RawQuota(Share(groupTokens, used, cost), target, p))
  }

  function GroupWeight(group: string): nat { if group == "other" then 1 else 3 }

  function TotalWeight(groups: seq<string>): nat {
    if groups == [] then 0 else TotalWeight(groups[..|groups| - 1]) + GroupWeight(groups[|groups| - 1])
  }

  /** A group's target share of the tokens. */
  function Target(groups: seq<string>, group: string): real {
    var total := TotalWeight(groups);
    if total == 0 then 0.0 else (GroupWeight(group) as real) / (total as real)
  }

  /** A candidate's key for the next place, from the running token counts. */
  function ChoiceRank(c: Candidate, ordered: seq<Candidate>, groupTokens: nat, used: nat, target: real,
        p: Penalties): (r: Rank)
    ensures |r.scores| == 5 && r.slug == c.slug
  {
    var duplicate := Redundancy(Similarity(c.slug, ordered, p.cosine), p);
    var quota := QuotaPenalty(groupTokens, used, c.standardTokenCost, target, p);
    Rank([Round6(c.baseScore - duplicate - quota), c.baseScore, c.queryRelevance, c.graphProximity,
          -(c.compactTokenCost as real)], c.slug)
  }

  /** The key of `c` after `ordered`, with the tokens counted from scratch. */
  ghost function MarginalRank(c: Candidate, ordered: seq<Candidate>, groups: seq<string>, p: Penalties): (r: Rank)
    ensures |r.scores| == 5 && r.slug == c.slug
  {
    ChoiceRank(c, ordered, GroupUsed(ordered, c.quotaGroup), Used(ordered), Target(groups, c.quotaGroup), p)
  }

  /** `c` is preferred, after `ordered`, to everything else in `pool`. */
  ghost predicate Wins(c: Candidate, pool: seq<Candidate>, ordered: seq<Candidate>, groups: seq<string>, p: Penalties) {
    forall d :: d in pool && d.slug != c.slug ==>
      Prefers(MarginalRank(c, ordered, groups, p), MarginalRank(d, ordered, groups, p))
  }

  /** At every place stands the candidate preferred to all that come later. */
  ghost predicate Greedy(ordered: seq<Candidate>, groups: seq<string>, p: Penalties) {
    forall i :: 0 <= i < |ordered| ==> Wins(ordered[i], ordered[i + 1..], ordered[..i], groups, p)
  }

  /** The counters `used` and `groupTokens` agree with what has been ordered. */
  ghost predicate Ledger(ordered: seq<Candidate>, used: nat, groupTokens: map<string, nat>) {
    && used == Used(ordered)
    && forall g :: GroupUsed(ordered, g) == if g in groupTokens then groupTokens[g] else 0
  }

  method PickWinner(remaining: seq<Candidate>, ordered: seq<Candidate>, used: nat, groupTokens: map<string, nat>,
                    groups: seq<string>, p: Penalties)
    returns (k: nat)
    requires remaining != [] && DistinctSlugs(remaining) && Ledger(ordered, used, groupTokens)
    ensures k < |remaining| && Wins(remaining[k], remaining, ordered, groups, p)
  {
    k := 0;
    var best := Choice(remaining[0], ordered, used, groupTokens, groups, p);
    for i := 1 to |remaining|
      invariant k < i && best == MarginalRank(remaining[k], ordered, groups, p)
      invariant Wins(remaining[k], remaining[..i], ordered, groups, p)
    {
      var rank := Choice(remaining[i], ordered, used, groupTokens, groups, p);
      WinsStep(remaining, i, k, ordered, groups, p);
      if Prefers(rank, best) { k, best := i, rank; }
    }
    assert remaining[..|remaining|] == remaining;
  }

  /** The closest of what is ordered, or 0. */
  method Closest(c: Candidate, ordered: seq<Candidate>, cosine: (Slug, Slug) -> real) returns (similarity: real)
    ensures similarity == Similarity(c.slug, ordered, cosine)
  {
    similarity := 0.0;
    for i := 0 to |ordered|
      invariant similarity == Similarity(c.slug, ordered[..i], cosine)
    {
      assert ordered[..i + 1][..i] == ordered[..i];
      if cosine(c.slug, ordered[i].slug) > similarity { similarity := cosine(c.slug, ordered[i].slug); }
    }
    assert ordered[..|ordered|] == ordered;
  }

  method DuplicatePenalty(c: Candidate, ordered: seq<Candidate>, p: Penalties) returns (penalty: real)
    ensures penalty == Redundancy(Similarity(c.slug, ordered, p.cosine), p)
  {
    var similarity := Closest(c, ordered, p.cosine);
    var raw := 0.0;
    if similarity > p.redundancyStart {
      raw := p.redundancyCap;
      if p.cosineThreshold != p.redundancyStart {
        var scaled := (similarity - p.redundancyStart) / (p.cosineThreshold - p.redundancyStart);
        var square := p.redundancyCap * (scaled * scaled);
        if square < raw { raw := square; }
      }
    }
    assert raw == RawRedundancy(similarity, p);
    penalty := Round6(raw);
  }

  method GroupPenalty(spent: nat, used: nat, cost: nat, target: real, p: Penalties) returns (penalty: real)
    ensures penalty == QuotaPenalty(spent, used, cost, target, p)
  {
    var share := 0.0;
    if used + cost > 0 { share := ((spent + cost) as real) / ((used + cost) as real); }
    assert share == Share(spent, used, cost);
    var excess := share - target;
    if excess < 0.0 { excess := 0.0; }
    var raw := p.softQuotaScale * excess;
    if raw > p.softQuotaCap { raw := p.softQuotaCap; }
    assert raw == RawQuota(share, target, p);
    penalty := Round6(raw);
  }

  /** One choice as the loop scores it, from its running counts. */
  method Choice(c: Candidate, ordered: seq<Candidate>, used: nat, groupTokens: map<string, nat>,
                groups: seq<string>, p: Penalties)
    returns (rank: Rank)
    requires Ledger(ordered, used, groupTokens)
    ensures rank == MarginalRank(c, ordered, groups, p)
  {
    var spent := if c.quotaGroup in groupTokens then groupTokens[c.quotaGroup] else 0;
    var quota := GroupPenalty(spent, used, c.standardTokenCost, Target(groups, c.quotaGroup), p);
    var duplicate := DuplicatePenalty(c, ordered, p);
    var marginal := Round6(c.baseScore - duplicate - quota);
    rank := Rank([marginal, c.baseScore, c.queryRelevance, c.graphProximity, -(c.compactTokenCost as real)], c.slug);
  }

  lemma WinsStep(remaining: seq<Candidate>, i: nat, k: nat, ordered: seq<Candidate>, groups: seq<string>, p: Penalties)
    requires k < i < |remaining| && DistinctSlugs(remaining)
    requires Wins(remaining[k], remaining[..i], ordered, groups, p)
    ensures Prefers(MarginalRank(remaining[i], ordered, groups, p), MarginalRank(remaining[k], ordered, groups, p))
      ==> Wins(remaining[i], remaining[..i + 1], ordered, groups, p)
    ensures !Prefers(MarginalRank(remaining[i], ordered, groups, p), MarginalRank(remaining[k], ordered, groups, p))
      ==> Wins(remaining[k], remaining[..i + 1], ordered, groups, p)
  {
    PrefixGrows(remaining, i);
    var rank, best := MarginalRank(remaining[i], ordered, groups, p), MarginalRank(remaining[k], ordered, groups, p);
    PrefersTotal(rank, best);
    if Prefers(rank, best) {
      forall d | d in remaining[..i] && d.slug != remaining[i].slug
        ensures Prefers(rank, MarginalRank(d, ordered, groups, p))
      {
        if d.slug != remaining[k].slug {
          PrefersTransitive(rank, best, MarginalRank(d, ordered, groups, p));
        } else {
          SameSlug(remaining, d, remaining[k]);
        }
      }
    }
  }

  lemma SameSlug(s: seq<Candidate>, a: Candidate, b: Candidate)
    requires DistinctSlugs(s) && a in s && b in s && a.slug == b.slug
    ensures a == b
  {
    var i :| 0 <= i < |s| && s[i] == a;
    var j :| 0 <= j < |s| && s[j] == b;
  }

  lemma LedgerStep(ordered: seq<Candidate>, used: nat, groupTokens: map<string, nat>, c: Candidate)
    requires Ledger(ordered, used, groupTokens)
    ensures Ledger(ordered + [c], used + c.standardTokenCost,
                   groupTokens[c.quotaGroup := (if c.quotaGroup in groupTokens then groupTokens[c.quotaGroup] else 0) + c.standardTokenCost])
  {
    assert (ordered + [c])[..|ordered|] == ordered;
  }

  lemma WinsFewer(c: Candidate, pool: seq<Candidate>, fewer: seq<Candidate>, ordered: seq<Candidate>,
                  groups: seq<string>, p: Penalties)
    requires Wins(c, pool, ordered, groups, p)
    requires forall d :: d in fewer ==> d in pool
    ensures Wins(c, fewer, ordered, groups, p)
  {
  }

  lemma GreedyStep(ordered: seq<Candidate>, remaining: seq<Candidate>, k: nat, groups: seq<string>, p: Penalties)
    requires k < |remaining|
    requires GreedyOver(ordered, remaining, groups, p) && Wins(remaining[k], remaining, ordered, groups, p)
    ensures GreedyOver(ordered + [remaining[k]], remaining[..k] + remaining[k + 1..], groups, p)
  {
    var more, rest := ordered + [remaining[k]], remaining[..k] + remaining[k + 1..];
    assert more[..|ordered|] == ordered;
    forall i | 0 <= i < |more| ensures Wins(more[i], more[i + 1..] + rest, more[..i], groups, p) {
      if i < |ordered| {
        assert more[..i] == ordered[..i];
        assert Wins(ordered[i], ordered[i + 1..] + remaining, ordered[..i], groups, p);
        WinsFewer(ordered[i], ordered[i + 1..] + remaining, more[i + 1..] + rest, ordered[..i], groups, p);
      }
    }
  }

  /** `Greedy` for an order still in the making: every place also beats what remains. */
  ghost predicate GreedyOver(ordered: seq<Candidate>, remaining: seq<Candidate>, groups: seq<string>, p: Penalties) {
    forall i :: 0 <= i < |ordered| ==> Wins(ordered[i], ordered[i + 1..] + remaining, ordered[..i], groups, p)
  }

  /** `rerank`: a permutation of the candidates, each place taken greedily. */
  method Rerank(candidates: seq<Candidate>, p: Penalties) returns (ordered: seq<Candidate>, groups: seq<string>)
    requires DistinctSlugs(candidates)
    ensures Sorted(groups) && forall g :: g in groups <==> exists c :: c in candidates && c.quotaGroup == g
    ensures multiset(ordered) == multiset(candidates)
    ensures Greedy(ordered, groups, p)
  {
    groups := SortedKeys(set c | c in candidates :: c.quotaGroup);
    ordered := [];
    var remaining := candidates;
    var used: nat, groupTokens: map<string, nat> := 0, map[];
    while remaining != []
      invariant multiset(ordered) + multiset(remaining) == multiset(candidates)
      invariant DistinctSlugs(remaining) && Ledger(ordered, used, groupTokens)
      invariant GreedyOver(ordered, remaining, groups, p)
      decreases |remaining|
    {
      var k := PickWinner(remaining, ordered, used, groupTokens, groups, p);
      var winner := remaining[k];
      GreedyStep(ordered, remaining, k, groups, p);
      LedgerStep(ordered, used, groupTokens, winner);
      RemoveAt(remaining, k);
      remaining := remaining[..k] + remaining[k + 1..];
      used := used + winner.standardTokenCost;
      groupTokens := groupTokens[winner.quotaGroup :=
        (if winner.quotaGroup in groupTokens then groupTokens[winner.quotaGroup] else 0) + winner.standardTokenCost];
      ordered := ordered + [winner];
    }
    assert Greedy(ordered, groups, p) by {
      forall i | 0 <= i < |ordered| ensures Wins(ordered[i], ordered[i + 1..], ordered[..i], groups, p) {
        assert ordered[i + 1..] + remaining == ordered[i + 1..];
      }
    }
  }

  lemma RemoveAt(s: seq<Candidate>, k: nat)
    requires k < |s| && DistinctSlugs(s)
    ensures multiset(s) == multiset(s[..k] + s[k + 1..]) + multiset{s[k]}
    ensures DistinctSlugs(s[..k] + s[k + 1..])
  {
    assert s == s[..k] + [s[k]] + s[k + 1..];
  }

  /** The greedy order is unique: two greedy orders of the same candidates are the same. */
  lemma GreedyUnique(a: seq<Candidate>, b: seq<Candidate>, groups: seq<string>, p: Penalties)
    requires Greedy(a, groups, p) && Greedy(b, groups, p)
    requires multiset(a) == multiset(b) && DistinctSlugs(a) && DistinctSlugs(b)
    ensures a == b
  {
    assert |a| == |multiset(a)| && |b| == |multiset(b)|;
    GreedyAgree(a, b, groups, p, |a|);
    assert a[..|a|] == a && b[..|b|] == b;
  }

  lemma {:induction false} GreedyAgree(a: seq<Candidate>, b: seq<Candidate>, groups: seq<string>, p: Penalties, n: nat)
    requires Greedy(a, groups, p) && Greedy(b, groups, p)
    requires multiset(a) == multiset(b) && DistinctSlugs(a) && DistinctSlugs(b)
    requires n <= |a| == |b|
    ensures a[..n] == b[..n]
  {
    if n > 0 {
      GreedyAgree(a, b, groups, p, n - 1);
      NextAgrees(a, b, groups, p, n - 1);
      PrefixGrows(a, n - 1);
      PrefixGrows(b, n - 1);
    }
  }

  lemma NextAgrees(a: seq<Candidate>, b: seq<Candidate>, groups: seq<string>, p: Penalties, n: nat)
    requires Greedy(a, groups, p) && Greedy(b, groups, p)
    requires multiset(a) == multiset(b) && DistinctSlugs(a) && DistinctSlugs(b)
    requires n < |a| == |b| && a[..n] == b[..n]
    ensures a[n] == b[n]
  {
    StillToCome(a, b, n);
    StillToCome(b, a, n);
    if a[n] != b[n] {
      LaterDiffers(a, n);
      LaterDiffers(b, n);
      assert Wins(a[n], a[n + 1..], a[..n], groups, p);
      assert Wins(b[n], b[n + 1..], b[..n], groups, p);
      PrefersTotal(MarginalRank(a[n], a[..n], groups, p), MarginalRank(b[n], a[..n], groups, p));
    }
  }

  lemma LaterDiffers(s: seq<Candidate>, n: nat)
    requires n < |s| && DistinctSlugs(s)
    ensures forall d :: d in s[n + 1..] ==> d.slug != s[n].slug
  {
  }

  /** With equal prefixes, what `b` places next `a` places later (or next). */
  lemma StillToCome(a: seq<Candidate>, b: seq<Candidate>, n: nat)
    requires multiset(a) == multiset(b) && DistinctSlugs(b) && n < |a| == |b| && a[..n] == b[..n]
    ensures b[n] == a[n] || b[n] in a[n + 1..]
  {
    forall j | 0 <= j < n ensures a[j] == b[j] {
      assert a[..n][j] == b[..n][j];
    }
    assert b[n] in multiset(b) && b[n] in multiset(a);
    var i :| 0 <= i < |a| && a[i] == b[n];
    if i > n {
      assert a[n + 1..][i - n - 1] == b[n];
    }
  }

  // ------------------------------------------------------- what the key says

  ghost function Marginal(c: Candidate, ordered: seq<Candidate>, groups: seq<string>, p: Penalties): real {
    MarginalRank(c, ordered, groups, p).scores[0]
  }

  /** Penalties that penalise. */
  predicate Sensible(p: Penalties) {
    0.0 <= p.redundancyCap && 0.0 <= p.softQuotaCap && 0.0 <= p.softQuotaScale && 0.0 <= p.redundancyStart <= p.cosineThreshold
  }

  /** The shipped settings. */
  function Shipped(cosine: (Slug, Slug) -> real): Penalties { Penalties(0.75, 0.20, 0.92, 0.25, 0.12, cosine) }

  /** The next place goes to the best marginal score, then base score, relevance, proximity, least cost, first slug. */
  lemma ChoiceOrder(c: Candidate, d: Candidate, ordered: seq<Candidate>, groups: seq<string>, p: Penalties)
    ensures Prefers(MarginalRank(c, ordered, groups, p), MarginalRank(d, ordered, groups, p)) <==>
      var m, n := Marginal(c, ordered, groups, p), Marginal(d, ordered, groups, p);
      if m != n then m > n
      else if c.baseScore != d.baseScore then c.baseScore > d.baseScore
      else if c.queryRelevance != d.queryRelevance then c.queryRelevance > d.queryRelevance
      else if c.graphProximity != d.graphProximity then c.graphProximity > d.graphProximity
      else if c.compactTokenCost != d.compactTokenCost then c.compactTokenCost < d.compactTokenCost
      else Less(c.slug, d.slug)
  {
    var x, y := MarginalRank(c, ordered, groups, p), MarginalRank(d, ordered, groups, p);
    LexFive(x, y);
  }

  lemma LexFive(x: Rank, y: Rank)
    requires |x.scores| == |y.scores| == 5
    ensures Prefers(x, y) <==>
      if x.scores[0] != y.scores[0] then x.scores[0] > y.scores[0]
      else if x.scores[1] != y.scores[1] then x.scores[1] > y.scores[1]
      else if x.scores[2] != y.scores[2] then x.scores[2] > y.scores[2]
      else if x.scores[3] != y.scores[3] then x.scores[3] > y.scores[3]
      else if x.scores[4] != y.scores[4] then x.scores[4] > y.scores[4]
      else Less(x.slug, y.slug)
  {
    LexStep(x, y);
    var x1, y1 := Rank(x.scores[1..], x.slug), Rank(y.scores[1..], y.slug);
    LexStep(x1, y1);
    var x2, y2 := Rank(x1.scores[1..], x.slug), Rank(y1.scores[1..], y.slug);
    LexStep(x2, y2);
    var x3, y3 := Rank(x2.scores[1..], x.slug), Rank(y2.scores[1..], y.slug);
    LexStep(x3, y3);
    var x4, y4 := Rank(x3.scores[1..], x.slug), Rank(y3.scores[1..], y.slug);
    LexStep(x4, y4);
    assert x4.scores[1..] == [] && y4.scores[1..] == [];
  }

  /** The similarity is the greatest of the cosines, and at least 0. */
  lemma {:induction false} SimilarityIsMax(slug: Slug, ordered: seq<Candidate>, cosine: (Slug, Slug) -> real)
    ensures Similarity(slug, ordered, cosine) >= 0.0
    ensures forall o :: o in ordered ==> cosine(slug, o.slug) <= Similarity(slug, ordered, cosine)
    ensures Similarity(slug, ordered, cosine) == 0.0
      || exists o :: o in ordered && cosine(slug, o.slug) == Similarity(slug, ordered, cosine)
  {
    if ordered != [] {
      var n := |ordered| - 1;
      SimilarityIsMax(slug, ordered[..n], cosine);
      assert ordered == ordered[..n] + [ordered[n]];
    }
  }

  ghost function Square(x: real, p: Penalties): real
    requires p.redundancyStart < p.cosineThreshold
  {
    var a := (x - p.redundancyStart) / (p.cosineThreshold - p.redundancyStart);
    p.redundancyCap * (a * a)
  }

  lemma SquareGrows(x: real, y: real, p: Penalties)
    requires Sensible(p) && p.redundancyStart < p.cosineThreshold && p.redundancyStart <= x <= y
    ensures 0.0 <= Square(x, p) <= Square(y, p)
  {
    var d := p.cosineThreshold - p.redundancyStart;
    Quotients(x - p.redundancyStart, y - p.redundancyStart, d);
    var a, b := (x - p.redundancyStart) / d, (y - p.redundancyStart) / d;
    Squares(a, b);
    Scaled(p.redundancyCap, a * a, b * b);
  }

  lemma SquareAtThreshold(p: Penalties)
    requires Sensible(p) && p.redundancyStart < p.cosineThreshold
    ensures Square(p.cosineThreshold, p) == p.redundancyCap
  {
    Quotients(0.0, 1.0, p.cosineThreshold - p.redundancyStart);
  }

  lemma RawIs(x: real, p: Penalties)
    ensures x <= p.redundancyStart ==> RawRedundancy(x, p) == 0.0
    ensures x > p.redundancyStart && p.redundancyStart < p.cosineThreshold ==>
      RawRedundancy(x, p) == Min(p.redundancyCap, Square(x, p))
    ensures x > p.redundancyStart && p.redundancyStart == p.cosineThreshold ==> RawRedundancy(x, p) == p.redundancyCap
  {
  }

  lemma RawBetween(x: real, p: Penalties)
    requires Sensible(p)
    ensures 0.0 <= RawRedundancy(x, p) <= p.redundancyCap
    ensures p.redundancyStart < p.cosineThreshold <= x ==> RawRedundancy(x, p) == p.redundancyCap
  {
    RawIs(x, p);
    if x > p.redundancyStart && p.redundancyStart < p.cosineThreshold {
      SquareGrows(x, x, p);
      SquareAtThreshold(p);
      if x >= p.cosineThreshold { SquareGrows(p.cosineThreshold, x, p); }
    }
  }

  /** A duplicate penalty grows with the similarity, from nothing to the cap. */
  lemma RedundancyGrows(x: real, y: real, p: Penalties)
    requires Sensible(p) && x <= y
    ensures 0.0 <= RawRedundancy(x, p) <= RawRedundancy(y, p) <= p.redundancyCap
    ensures y <= p.redundancyStart ==> RawRedundancy(y, p) == 0.0
    ensures p.redundancyStart < p.cosineThreshold <= y ==> RawRedundancy(y, p) == p.redundancyCap
  {
    RawBetween(x, p);
    RawBetween(y, p);
    RawIs(x, p);
    RawIs(y, p);
    if x > p.redundancyStart && p.redundancyStart < p.cosineThreshold { SquareGrows(x, y, p); }
  }

  lemma Quotients(x: real, y: real, d: real)
    requires x <= y && d > 0.0
    ensures x / d <= y / d && (x >= 0.0 ==> x / d >= 0.0) && d / d == 1.0 && (y > 0.0 ==> y / d > 0.0)
  {
  }

  lemma Squares(a: real, b: real)
    requires 0.0 <= a <= b
    ensures 0.0 <= a * a <= b * b
  {
    assert b * b - a * a == (b - a) * (b + a);
  }

  lemma Scaled(k: real, a: real, b: real)
    requires 0.0 <= k && 0.0 <= a <= b
    ensures 0.0 <= k * a <= k * b && k * 0.0 == 0.0 && k * 1.0 == k
  {
    assert k * b - k * a == k * (b - a);
  }

  /** A quota penalty grows with the excess over the target, from nothing to the cap. */
  lemma QuotaGrows(share: real, target: real, more: real, less: real, p: Penalties)
    requires Sensible(p) && share - target <= more - less
    ensures 0.0 <= RawQuota(share, target, p) <= RawQuota(more, less, p) <= p.softQuotaCap
    ensures more <= less ==> RawQuota(more, less, p) == 0.0
  {
    Scaled(p.softQuotaScale, Max(0.0, share - target), Max(0.0, more - less));
    Scaled(p.softQuotaScale, 0.0, Max(0.0, more - less));
  }

  /** Close to nothing ordered, and in a group that stays within its target. */
  ghost predicate Unpenalised(c: Candidate, ordered: seq<Candidate>, groups: seq<string>, p: Penalties) {
    && (forall o :: o in ordered ==> p.cosine(c.slug, o.slug) <= p.redundancyStart)
    && Share(GroupUsed(ordered, c.quotaGroup), Used(ordered), c.standardTokenCost) <= Target(groups, c.quotaGroup)
  }

  ghost predicate Duplicate(c: Candidate, ordered: seq<Candidate>, p: Penalties) {
    p.redundancyStart < p.cosineThreshold && exists o :: o in ordered && p.cosine(c.slug, o.slug) >= p.cosineThreshold
  }

  /**
   * The marginal score is the base score less both penalties: it lies between the base score and the base score less
   * both caps, and is the base score for what resembles nothing ordered and keeps its group within its target.
   */
  lemma MarginalBetween(c: Candidate, ordered: seq<Candidate>, groups: seq<string>, p: Penalties)
    requires Sensible(p)
    ensures Round6(c.baseScore - Round6(p.redundancyCap) - Round6(p.softQuotaCap)) <= Marginal(c, ordered, groups, p)
    ensures Marginal(c, ordered, groups, p) <= Round6(c.baseScore)
    ensures Unpenalised(c, ordered, groups, p) ==> Marginal(c, ordered, groups, p) == Round6(c.baseScore)
    ensures Duplicate(c, ordered, p) ==> Marginal(c, ordered, groups, p) <= Round6(c.baseScore - Round6(p.redundancyCap))
  {
    var similarity := Similarity(c.slug, ordered, p.cosine);
    var share, target := Share(GroupUsed(ordered, c.quotaGroup), Used(ordered), c.standardTokenCost), Target(groups, c.quotaGroup);
    SimilarityIsMax(c.slug, ordered, p.cosine);
    RedundancyGrows(similarity, similarity, p);
    QuotaGrows(share, target, share, target, p);
    var duplicate, quota := Redundancy(similarity, p), Round6(RawQuota(share, target, p));
    RoundMonotone(0.0, RawRedundancy(similarity, p));
    RoundMonotone(RawRedundancy(similarity, p), p.redundancyCap);
    RoundMonotone(0.0, RawQuota(share, target, p));
    RoundMonotone(RawQuota(share, target, p), p.softQuotaCap);
    assert Round6(0.0) == 0.0;
    RoundMonotone(c.baseScore - Round6(p.redundancyCap) - Round6(p.softQuotaCap), c.baseScore - duplicate - quota);
    RoundMonotone(c.baseScore - duplicate - quota, c.baseScore);
    if Duplicate(c, ordered, p) {
      RoundMonotone(c.baseScore - duplicate - quota, c.baseScore - Round6(p.redundancyCap));
    }
  }

  /** The same but for slug, evidence and group. */
  predicate Alike(c: Candidate, d: Candidate) {
    && c.baseScore == d.baseScore && c.queryRelevance == d.queryRelevance && c.graphProximity == d.graphProximity
    && c.standardTokenCost == d.standardTokenCost && c.compactTokenCost == d.compactTokenCost
  }

  /** At most as close to everything ordered, in a group that has used no more and is allowed no less. */
  ghost predicate NoWorseOff(c: Candidate, d: Candidate, ordered: seq<Candidate>, groups: seq<string>, p: Penalties) {
    && (forall o :: o in ordered ==> p.cosine(c.slug, o.slug) <= p.cosine(d.slug, o.slug))
    && GroupUsed(ordered, c.quotaGroup) <= GroupUsed(ordered, d.quotaGroup)
    && Target(groups, c.quotaGroup) >= Target(groups, d.quotaGroup)
  }

  /** Of two alike, the marginal score of the one that is no worse off is no worse. */
  lemma MarginalAntitone(c: Candidate, d: Candidate, ordered: seq<Candidate>, groups: seq<string>, p: Penalties)
    requires Sensible(p) && Alike(c, d) && NoWorseOff(c, d, ordered, groups, p)
    ensures Marginal(c, ordered, groups, p) >= Marginal(d, ordered, groups, p)
  {
    var cost, used := c.standardTokenCost, Used(ordered);
    var x, y := Similarity(c.slug, ordered, p.cosine), Similarity(d.slug, ordered, p.cosine);
    var s, t := Share(GroupUsed(ordered, c.quotaGroup), used, cost), Share(GroupUsed(ordered, d.quotaGroup), used, cost);
    SimilarityIsMax(c.slug, ordered, p.cosine);
    SimilarityIsMax(d.slug, ordered, p.cosine);
    RedundancyGrows(x, y, p);
    RoundMonotone(RawRedundancy(x, p), RawRedundancy(y, p));
    ShareGrows(GroupUsed(ordered, c.quotaGroup), GroupUsed(ordered, d.quotaGroup), used, cost);
    QuotaGrows(s, Target(groups, c.quotaGroup), t, Target(groups, d.quotaGroup), p);
    RoundMonotone(RawQuota(s, Target(groups, c.quotaGroup), p), RawQuota(t, Target(groups, d.quotaGroup), p));
    RoundMonotone(d.baseScore - Redundancy(y, p) - Round6(RawQuota(t, Target(groups, d.quotaGroup), p)),
                  c.baseScore - Redundancy(x, p) - Round6(RawQuota(s, Target(groups, c.quotaGroup), p)));
  }

  lemma ShareGrows(a: nat, b: nat, used: nat, cost: nat)
    requires a <= b
    ensures Share(a, used, cost) <= Share(b, used, cost)
  {
    if used + cost > 0 { Quotients((a + cost) as real, (b + cost) as real, (used + cost) as real); }
  }

  /**
   * So of two alike, the one that is worse off is never placed first, unless rounding or the caps make their marginal
   * scores the same and it is first by slug.
   */
  lemma CloserLater(ordered: seq<Candidate>, groups: seq<string>, p: Penalties, i: nat, j: nat)
    requires Sensible(p) && Greedy(ordered, groups, p) && DistinctSlugs(ordered) && i < j < |ordered|
    requires Alike(ordered[i], ordered[j]) && NoWorseOff(ordered[j], ordered[i], ordered[..i], groups, p)
    ensures Marginal(ordered[i], ordered[..i], groups, p) == Marginal(ordered[j], ordered[..i], groups, p)
    ensures Less(ordered[i].slug, ordered[j].slug)
  {
    MarginalAntitone(ordered[j], ordered[i], ordered[..i], groups, p);
    assert Wins(ordered[i], ordered[i + 1..], ordered[..i], groups, p);
    assert ordered[i + 1..][j - i - 1] == ordered[j];
    ChoiceOrder(ordered[i], ordered[j], ordered[..i], groups, p);
  }

  // ------------------------------------------------------------- group targets

  function SumTargets(all: seq<string>, groups: seq<string>): real {
    if groups == [] then 0.0 else SumTargets(all, groups[..|groups| - 1]) + Target(all, groups[|groups| - 1])
  }

  lemma {:induction false} SumOfWeights(all: seq<string>, groups: seq<string>)
    requires TotalWeight(all) > 0
    ensures SumTargets(all, groups) == (TotalWeight(groups) as real) / (TotalWeight(all) as real)
  {
    var total := TotalWeight(all) as real;
    if groups != [] {
      var n := |groups| - 1;
      SumOfWeights(all, groups[..n]);
      SameDivisor(TotalWeight(groups[..n]) as real, GroupWeight(groups[n]) as real, total);
    } else {
      assert 0.0 / total == 0.0;
    }
  }

  lemma SameDivisor(a: real, b: real, total: real)
    requires total > 0.0
    ensures a / total + b / total == (a + b) / total
  {
  }

  /** The targets are shares of one; a group of its own is meant to have three times what all others together have. */
  lemma TargetShares(groups: seq<string>, g: string, h: string)
    requires groups != []
    ensures SumTargets(groups, groups) == 1.0
    ensures g != "other" ==> Target(groups, g) == 3.0 * Target(groups, "other")
  {
    assert TotalWeight(groups) > 0;
    SumOfWeights(groups, groups);
  }

  // ------------------------------------------------- the shipped settings at work

  /** A memory without group, relevance or proximity of its own. */
  predicate Plain(c: Candidate, group: string, score: real, cost: nat) {
    c.quotaGroup == group && c.baseScore == score && c.standardTokenCost == cost
  }

  lemma OnePlaced(c: Candidate, a: Candidate, cosine: (Slug, Slug) -> real)
    ensures Similarity(c.slug, [a], cosine) == Max(0.0, cosine(c.slug, a.slug))
    ensures Used([a]) == a.standardTokenCost
    ensures GroupUsed([a], c.quotaGroup) == if a.quotaGroup == c.quotaGroup then a.standardTokenCost else 0
  {
    assert [a][..0] == [];
    assert Similarity(c.slug, [], cosine) == 0.0 && Used([]) == 0 && GroupUsed([], c.quotaGroup) == 0;
  }

  lemma ScoresWin(a: Candidate, b: Candidate, c: Candidate, groups: seq<string>, p: Penalties)
    requires Marginal(a, [], groups, p) > Marginal(b, [], groups, p) && Marginal(a, [], groups, p) > Marginal(c, [], groups, p)
    requires Marginal(b, [a], groups, p) > Marginal(c, [a], groups, p)
    ensures Greedy([a, b, c], groups, p)
  {
    ChoiceOrder(a, b, [], groups, p);
    ChoiceOrder(a, c, [], groups, p);
    ChoiceOrder(b, c, [a], groups, p);
    var s := [a, b, c];
    assert s[..0] == [] && s[..1] == [a] && s[1..] == [b, c] && s[2..] == [c] && s[3..] == [];
  }

  lemma OneGroup(n: nat, cost: nat)
    requires cost > 0
    ensures Target(["other"], "other") == 1.0 && Share(n, n, cost) == 1.0
  {
    assert ["other"][..0] == [];
    assert TotalWeight(["other"]) == 1;
    OfItself((n + cost) as real);
  }

  lemma OfItself(x: real)
    requires x != 0.0
    ensures x / x == 1.0
  {
  }

  /** A near-duplicate of the best memory loses more than a fifth of its score, and falls behind a lesser one. */
  lemma NearDuplicateFalls(a: Candidate, b: Candidate, c: Candidate, cosine: (Slug, Slug) -> real, cost: nat)
    requires cost > 0 && Plain(a, "other", 0.80, cost) && Plain(b, "other", 0.70, cost) && Plain(c, "other", 0.65, cost)
    requires cosine(b.slug, a.slug) == 0.9 && cosine(c.slug, a.slug) == 0.0
    ensures Marginal(b, [a], ["other"], Shipped(cosine)) == 0.544291
    ensures Greedy([a, c, b], ["other"], Shipped(cosine))
  {
    var p, groups := Shipped(cosine), ["other"];
    OneGroup(0, cost);
    OneGroup(cost, cost);
    OnePlaced(b, a, cosine);
    OnePlaced(c, a, cosine);
    assert RawQuota(1.0, 1.0, p) == 0.0 && Round6(0.0) == 0.0;
    assert RawRedundancy(0.0, p) == 0.0;
    PenaltyAtNine(p);
    assert Round6(0.8) == 0.8 && Round6(0.7) == 0.7 && Round6(0.65) == 0.65 && Round6(0.544291) == 0.544291;
    ScoresWin(a, c, b, groups, p);
  }

  lemma PenaltyAtNine(p: Penalties)
    requires p.redundancyStart == 0.75 && p.redundancyCap == 0.20 && p.cosineThreshold == 0.92
    ensures Redundancy(0.9, p) == 0.155709
  {
    var scaled := (0.9 - p.redundancyStart) / (p.cosineThreshold - p.redundancyStart);
    assert scaled == 15.0 / 17.0;
    assert scaled * scaled == 225.0 / 289.0;
    assert p.redundancyCap * (scaled * scaled) == 45.0 / 289.0;
  }

  /** A second memory of a full group falls behind a lesser one of a group with room. */
  lemma FullGroupYields(a: Candidate, b: Candidate, c: Candidate, cosine: (Slug, Slug) -> real, cost: nat)
    requires cost > 0 && Plain(a, "other", 0.80, cost) && Plain(b, "other", 0.75, cost) && Plain(c, "bug", 0.70, cost)
    requires cosine(b.slug, a.slug) <= 0.75 && cosine(c.slug, a.slug) <= 0.75
    ensures Marginal(b, [a], ["bug", "other"], Shipped(cosine)) == 0.63
    ensures Greedy([a, c, b], ["bug", "other"], Shipped(cosine))
  {
    var p, groups := Shipped(cosine), ["bug", "other"];
    TwoGroups();
    OnePlaced(b, a, cosine);
    OnePlaced(c, a, cosine);
    Halves(cost);
    assert RawRedundancy(0.0, p) == 0.0 && RawRedundancy(Max(0.0, cosine(b.slug, a.slug)), p) == 0.0;
    assert RawRedundancy(Max(0.0, cosine(c.slug, a.slug)), p) == 0.0;
    assert RawQuota(1.0, 0.25, p) == 0.12 && RawQuota(1.0, 0.75, p) == 0.0625 && RawQuota(0.5, 0.75, p) == 0.0;
    assert Round6(0.0) == 0.0 && Round6(0.12) == 0.12 && Round6(0.0625) == 0.0625;
    assert Round6(0.68) == 0.68 && Round6(0.63) == 0.63 && Round6(0.6375) == 0.6375 && Round6(0.7) == 0.7;
    ScoresWin(a, c, b, groups, p);
  }

  lemma TwoGroups()
    ensures Target(["bug", "other"], "bug") == 0.75 && Target(["bug", "other"], "other") == 0.25
  {
    var groups := ["bug", "other"];
    assert groups[..1] == ["bug"] && ["bug"][..0] == [];
    assert TotalWeight(["bug"]) == 3 && TotalWeight(groups) == 4;
  }

  lemma Halves(cost: nat)
    requires cost > 0
    ensures Share(0, 0, cost) == 1.0 && Share(cost, cost, cost) == 1.0 && Share(0, cost, cost) == 0.5
  {
  }
}
