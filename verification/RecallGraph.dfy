/**
 * Graph expansion of recall: the weighted link graph and the bounded breadth-first
 * search that attaches, to every admitted memory, its best path from every seed.
 */
module RecallGraph {
  import opened Texts

  type Slug = string
  type Graph = map<Slug, map<Slug, real>>

  datatype Memory = Memory(slug: Slug, links: seq<Slug>)

  /**
   * The tunables. `times` multiplies two edge weights and `strength(product, hop)` is the rounded, decayed
   * strength of a path; both are left to the caller, so that what is proved holds whatever the number format.
   */
  datatype Config = Config(
    maxHop: nat, maxCandidates: nat,
    forwardEdgeStrength: real, reverseEdgeStrength: real,
    times: (real, real) -> real, strength: (real, nat) -> real)

  /** One direction entry. A direction is named by its seed. */
  datatype Evidence = Evidence(seedSlug: Slug, hop: nat, pathStrength: real, path: seq<Slug>)

  /** The evidence of one direction, by memory. */
  type Direction = map<Slug, Evidence>

  datatype Visit = Visit(slug: Slug, hop: nat, product: real, path: seq<Slug>)

  function Max(a: real, b: real): real { if a < b then b else a }

  /** `Math.round(x * 1e6) / 1e6`. */
  function Round6(x: real): real {
    ((x * 1000000.0 + 0.5).Floor as real) / 1000000.0
  }

  /** To the nearest millionth, the upper one of two as near. */
  lemma RoundNearest(x: real)
    ensures x - 0.0000005 < Round6(x) <= x + 0.0000005
    ensures (Round6(x) * 1000000.0).Floor as real == Round6(x) * 1000000.0
  {
    var k := (x * 1000000.0 + 0.5).Floor;
    assert Round6(x) * 1000000.0 == k as real;
  }

  lemma RoundMonotone(x: real, y: real)
    requires x <= y
    ensures Round6(x) <= Round6(y)
  {
    var a, b := x * 1000000.0 + 0.5, y * 1000000.0 + 0.5;
    assert a <= b;
    FloorMonotone(a, b);
    assert Round6(x) == (a.Floor as real) / 1000000.0 && Round6(y) == (b.Floor as real) / 1000000.0;
  }

  lemma FloorMonotone(a: real, b: real)
    requires a <= b
    ensures a.Floor as real <= b.Floor as real
  {
    var m, n := a.Floor, b.Floor;
    assert m as real <= a && b < n as real + 1.0;
    assert (m - n) as real == m as real - n as real;
    assert ((m - n) as real) < 1.0;
  }

  function Power(base: real, n: nat): real {
    if n == 0 then 1.0 else base * Power(base, n - 1)
  }

  /** The shipped settings, in exact arithmetic: weights multiply, decay 0.7 per hop after the first. */
  function DefaultConfig(): Config {
    Config(2, 128, 1.0, 0.85, (a, b) => a * b,
           (product: real, hop: nat) => Round6(product * Power(0.7, if hop == 0 then 0 else hop - 1)))
  }

  // ---------------------------------------------------------------- adjacency

  /** Every (from, to) pair of slugs some memory links. */
  ghost function Links(memories: seq<Memory>): set<(Slug, Slug)> {
    set m, l | m in memories && l in m.links :: (m.slug, l)
  }

  ghost function LinksOf(slug: Slug, links: seq<Slug>): set<(Slug, Slug)> {
    set l | l in links :: (slug, l)
  }

  lemma LinksOfGrow(slug: Slug, links: seq<Slug>, j: nat)
    requires j < |links|
    ensures LinksOf(slug, links[..j + 1]) == LinksOf(slug, links[..j]) + {(slug, links[j])}
  {
    assert links[..j + 1] == links[..j] + [links[j]];
  }

  lemma LinksGrow(memories: seq<Memory>, i: nat)
    requires i < |memories|
    ensures Links(memories[..i + 1]) == Links(memories[..i]) + LinksOf(memories[i].slug, memories[i].links)
  {
    assert memories[..i + 1] == memories[..i] + [memories[i]];
  }

  /** The weight two memories must be joined with, from `u` to `v`. */
  ghost function LinkWeight(links: set<(Slug, Slug)>, u: Slug, v: Slug, config: Config): real {
    var forward := if (u, v) in links then Max(0.0, config.forwardEdgeStrength) else 0.0;
    if (v, u) in links then Max(forward, config.reverseEdgeStrength) else forward
  }

  /** Edges stay inside the graph and never loop. */
  ghost predicate Closed(g: Graph) {
    forall u :: u in g ==> g[u].Keys <= g.Keys && u !in g[u]
  }

  /** What `u` must be joined to: each other slug one of the two links, with the weight that calls for. */
  ghost function Row(slugs: set<Slug>, links: set<(Slug, Slug)>, u: Slug, config: Config): map<Slug, real> {
    map v | v in slugs && v != u && ((u, v) in links || (v, u) in links) :: LinkWeight(links, u, v, config)
  }

  ghost predicate Joins(g: Graph, links: set<(Slug, Slug)>, config: Config) {
    forall u :: u in g ==> g[u] == Row(g.Keys, links, u, config)
  }

  function Raise(row: map<Slug, real>, v: Slug, strength: real): map<Slug, real> {
    row[v := Max(if v in row then row[v] else 0.0, strength)]
  }

  function AddLink(g: Graph, u: Slug, v: Slug, config: Config): Graph
    requires u in g
  {
    if v !in g || v == u then g
    else
      var out := g[u := Raise(g[u], v, config.forwardEdgeStrength)];
      out[v := Raise(out[v], u, config.reverseEdgeStrength)]
  }

  /** How one more link changes a row. */
  lemma RowGrows(slugs: set<Slug>, links: set<(Slug, Slug)>, u: Slug, v: Slug, a: Slug, config: Config)
    requires u in slugs && v in slugs && v != u
    ensures Row(slugs, links + {(u, v)}, a, config) ==
            if a == u then Raise(Row(slugs, links, a, config), v, config.forwardEdgeStrength)
            else if a == v then Raise(Row(slugs, links, a, config), u, config.reverseEdgeStrength)
            else Row(slugs, links, a, config)
  {
    var row, more := Row(slugs, links, a, config), Row(slugs, links + {(u, v)}, a, config);
    if a == u {
      assert more[v] == LinkWeight(links + {(u, v)}, u, v, config);
      assert more.Keys == row.Keys + {v};
    } else if a == v {
      assert more[u] == LinkWeight(links + {(u, v)}, v, u, config);
      assert more.Keys == row.Keys + {u};
    } else {
      assert more.Keys == row.Keys;
    }
  }

  lemma AddLinkJoins(g: Graph, links: set<(Slug, Slug)>, u: Slug, v: Slug, config: Config)
    requires u in g && Joins(g, links, config)
    ensures Joins(AddLink(g, u, v, config), links + {(u, v)}, config)
    ensures AddLink(g, u, v, config).Keys == g.Keys
  {
    var r, more := AddLink(g, u, v, config), links + {(u, v)};
    assert r.Keys == g.Keys;
    forall a | a in r ensures r[a] == Row(r.Keys, more, a, config) {
      assert g[a] == Row(g.Keys, links, a, config);
      if v in g && v != u {
        RowGrows(g.Keys, links, u, v, a, config);
      } else {
        RowStays(g.Keys, links, u, v, a, config);
      }
    }
  }

  lemma RowStays(slugs: set<Slug>, links: set<(Slug, Slug)>, u: Slug, v: Slug, a: Slug, config: Config)
    requires v !in slugs || v == u
    requires a in slugs
    ensures Row(slugs, links + {(u, v)}, a, config) == Row(slugs, links, a, config)
  {
    assert Row(slugs, links + {(u, v)}, a, config).Keys == Row(slugs, links, a, config).Keys;
  }

  method BuildAdjacency(memories: seq<Memory>, config: Config) returns (g: Graph)
    ensures g.Keys == set m | m in memories :: m.slug
    ensures Joins(g, Links(memories), config) && Closed(g)
  {
    g := map m | m in memories :: m.slug := map[];
    ghost var links: set<(Slug, Slug)> := {};
    ghost var slugs := g.Keys;
    NothingJoined(g, config);
    for i := 0 to |memories|
      invariant g.Keys == slugs
      invariant links == Links(memories[..i])
      invariant Joins(g, links, config)
    {
      var memory := memories[i];
      ghost var earlier := links;
      for j := 0 to |memory.links|
        invariant g.Keys == slugs
        invariant links == earlier + LinksOf(memory.slug, memory.links[..j])
        invariant Joins(g, links, config)
      {
        AddLinkJoins(g, links, memory.slug, memory.links[j], config);
        LinksOfGrow(memory.slug, memory.links, j);
        links := links + {(memory.slug, memory.links[j])};
        g := AddLink(g, memory.slug, memory.links[j], config);
      }
      assert memory.links[..|memory.links|] == memory.links;
      LinksGrow(memories, i);
    }
    assert memories[..|memories|] == memories;
    JoinsClosed(g, links, config);
  }

  lemma NothingJoined(g: Graph, config: Config)
    requires forall u :: u in g ==> g[u] == map[]
    ensures Joins(g, {}, config)
  {
  }

  lemma JoinsClosed(g: Graph, links: set<(Slug, Slug)>, config: Config)
    requires Joins(g, links, config)
    ensures Closed(g)
  {
  }

  // -------------------------------------------------------------------- paths

  function Last(p: seq<Slug>): Slug requires p != [] { p[|p| - 1] }

  function Init(p: seq<Slug>): seq<Slug> requires p != [] { p[..|p| - 1] }

  /** A path of `g`: one memory, or a path followed along an edge to a memory not on it. */
  ghost predicate SimplePath(g: Graph, p: seq<Slug>) {
    if |p| <= 1 then |p| == 1 && p[0] in g
    else SimplePath(g, Init(p)) && Last(p) in g && Last(p) !in Init(p)
         && Last(Init(p)) in g && Last(p) in g[Last(Init(p))]
  }

  ghost predicate Within(p: seq<Slug>, slugs: set<Slug>) {
    forall v :: v in p ==> v in slugs
  }

  /** A path from `seed` of at most `maxHop` hops. */
  ghost predicate PathFrom(g: Graph, config: Config, seed: Slug, p: seq<Slug>) {
    SimplePath(g, p) && p[0] == seed && |p| - 1 <= config.maxHop
  }

  ghost function Product(g: Graph, config: Config, p: seq<Slug>): real
    requires SimplePath(g, p)
  {
    if |p| == 1 then 1.0 else config.times(Product(g, config, Init(p)), g[Last(Init(p))][Last(p)])
  }

  /** The strength of a path: edges multiplied, decayed once per hop after the first, rounded. */
  ghost function Strength(g: Graph, config: Config, p: seq<Slug>): real
    requires SimplePath(g, p)
  {
    if |p| == 1 then 0.5 else config.strength(Product(g, config, p), |p| - 1)
  }

  /** `e` is at least as good as `p`: stronger, or as strong in as few hops. */
  ghost predicate AtLeast(g: Graph, config: Config, e: Evidence, p: seq<Slug>)
    requires SimplePath(g, p)
  {
    e.pathStrength > Strength(g, config, p) || (e.pathStrength == Strength(g, config, p) && e.hop <= |p| - 1)
  }

  /** `e` describes an actual path of the graph, from the seed to `v`, inside `slugs`. */
  ghost predicate Witnessed(g: Graph, config: Config, slugs: set<Slug>, seed: Slug, v: Slug, e: Evidence) {
    && PathFrom(g, config, seed, e.path) && Within(e.path, slugs) && Last(e.path) == v
    && e.seedSlug == seed && e.hop == |e.path| - 1 && e.pathStrength == Strength(g, config, e.path)
  }

  /** `p` ends at a memory of the direction, whose evidence is at least as good. */
  ghost predicate Covered(g: Graph, config: Config, found: Direction, p: seq<Slug>)
    requires SimplePath(g, p)
  {
    Last(p) in found && AtLeast(g, config, found[Last(p)], p)
  }

  /**
   * The specification of one direction: an admitted memory carries evidence from `seed` exactly when
   * some path inside the admitted set reaches it, and then the best of all such paths.
   */
  ghost predicate Exact(g: Graph, config: Config, admitted: set<Slug>, seed: Slug, found: Direction) {
    && (forall v :: v in found ==> Witnessed(g, config, admitted, seed, v, found[v]))
    && (forall p :: PathFrom(g, config, seed, p) && Within(p, admitted) ==> Covered(g, config, found, p))
  }

  // --------------------------------------------------------- one seed's search

  ghost predicate VisitOf(g: Graph, config: Config, seed: Slug, visit: Visit) {
    && PathFrom(g, config, seed, visit.path)
    && visit.slug == Last(visit.path) && visit.hop == |visit.path| - 1
    && visit.product == Product(g, config, visit.path)
  }

  ghost predicate Pending(queue: seq<Visit>, p: seq<Slug>) {
    exists i :: 0 <= i < |queue| && queue[i].path == p
  }

  ghost predicate Recorded(g: Graph, config: Config, admitted: set<Slug>, seed: Slug, found: Direction, p: seq<Slug>) {
    PathFrom(g, config, seed, p) && Within(p, admitted) && Covered(g, config, found, p)
  }

  /** What the search keeps about the admitted set and the direction; `seen` are all paths ever queued. */
  ghost predicate Mapped(g: Graph, config: Config, admitted: set<Slug>, seed: Slug, found: Direction,
        seen: set<seq<Slug>>) {
    && (forall p :: p in seen ==> Recorded(g, config, admitted, seed, found, p))
    && (forall v :: v in found ==> Witnessed(g, config, admitted, seed, v, found[v]))
  }

  /** Every queued visit stands for a path already seen. */
  ghost predicate Queued(g: Graph, config: Config, seed: Slug, queue: seq<Visit>, seen: set<seq<Slug>>) {
    forall i :: 0 <= i < |queue| ==> VisitOf(g, config, seed, queue[i]) && queue[i].path in seen
  }

  /** A memory the cap keeps out; with the cap reached it stays out. */
  ghost predicate Refused(config: Config, admitted: set<Slug>, v: Slug) {
    v !in admitted && |admitted| >= config.maxCandidates
  }

  /** Following `v` from `p` has been dealt with. */
  ghost predicate Followed(config: Config, admitted: set<Slug>, seen: set<seq<Slug>>, p: seq<Slug>, v: Slug) {
    v in p || p + [v] in seen || Refused(config, admitted, v)
  }

  ghost predicate Closes(g: Graph, config: Config, admitted: set<Slug>, seen: set<seq<Slug>>, p: seq<Slug>)
    requires SimplePath(g, p)
  {
    |p| - 1 < config.maxHop ==> forall v :: v in g[Last(p)] ==> Followed(config, admitted, seen, p, v)
  }

  /** Nothing admitted is dropped, the cap holds, and a full set is final. */
  ghost predicate Grows(config: Config, before: set<Slug>, after: set<Slug>) {
    && before <= after
    && (before == after || |before| < |after| <= config.maxCandidates)
  }

  /** `ensure`: admits a memory while there is room. */
  function Ensure(admitted: set<Slug>, slug: Slug, config: Config): (r: set<Slug>)
    ensures slug in r || (r == admitted && Refused(config, r, slug))
    ensures Grows(config, admitted, r) && r <= admitted + {slug}
  {
    if slug !in admitted && |admitted| < config.maxCandidates then admitted + {slug} else admitted
  }

  /** Keeps the better of the recorded and the new path. */
  function Improve(found: Direction, slug: Slug, e: Evidence): Direction {
    if slug !in found
       || e.pathStrength > found[slug].pathStrength
       || (e.pathStrength == found[slug].pathStrength && e.hop < found[slug].hop)
    then found[slug := e]
    else found
  }

  /** `current` followed along one edge. */
  function Follow(g: Graph, config: Config, current: Visit, nextSlug: Slug): Visit
    requires current.slug in g && nextSlug in g[current.slug]
  {
    Visit(nextSlug, current.hop + 1, config.times(current.product, g[current.slug][nextSlug]), current.path + [nextSlug])
  }

  function EvidenceAt(config: Config, seed: Slug, visit: Visit): Evidence {
    Evidence(seed, visit.hop, config.strength(visit.product, visit.hop), visit.path)
  }

  lemma FollowVisit(g: Graph, config: Config, seed: Slug, current: Visit, v: Slug)
    requires VisitOf(g, config, seed, current) && Closed(g) && current.hop < config.maxHop
    requires v in g[current.slug] && v !in current.path
    ensures
      var next := Follow(g, config, current, v);
      VisitOf(g, config, seed, next) && EvidenceAt(config, seed, next) == EvidenceOf(g, config, seed, next.path)
  {
    assert Init(current.path + [v]) == current.path;
  }

  ghost function EvidenceOf(g: Graph, config: Config, seed: Slug, p: seq<Slug>): Evidence
    requires SimplePath(g, p)
  {
    Evidence(seed, |p| - 1, Strength(g, config, p), p)
  }

  lemma MappedGrows(g: Graph, config: Config, before: set<Slug>, after: set<Slug>, seed: Slug, found: Direction,
        seen: set<seq<Slug>>)
    requires Mapped(g, config, before, seed, found, seen) && before <= after
    ensures Mapped(g, config, after, seed, found, seen)
  {
    forall p | p in seen ensures Recorded(g, config, after, seed, found, p) {
      assert Recorded(g, config, before, seed, found, p);
    }
  }

  /** Recording one more path inside the admitted set loses nothing recorded before. */
  lemma RecordStep(g: Graph, config: Config, admitted: set<Slug>, seed: Slug, found: Direction,
                   seen: set<seq<Slug>>, p: seq<Slug>)
    requires Mapped(g, config, admitted, seed, found, seen)
    requires PathFrom(g, config, seed, p) && Within(p, admitted)
    ensures Mapped(g, config, admitted, seed, Improve(found, Last(p), EvidenceOf(g, config, seed, p)), seen + {p})
  {
    var r := Improve(found, Last(p), EvidenceOf(g, config, seed, p));
    forall q | q in seen + {p} ensures Recorded(g, config, admitted, seed, r, q) {
      if q != p { assert Recorded(g, config, admitted, seed, found, q); }
    }
  }

  lemma QueuedAppend(g: Graph, config: Config, seed: Slug, queue: seq<Visit>, seen: set<seq<Slug>>, visit: Visit)
    requires Queued(g, config, seed, queue, seen) && VisitOf(g, config, seed, visit)
    ensures Queued(g, config, seed, queue + [visit], seen + {visit.path})
  {
  }

  // Termination: a visit outweighs everything it can put on the queue.

  ghost function Repeat(times: nat, weight: nat): nat {
    if times == 0 then 0 else weight + Repeat(times - 1, weight)
  }

  ghost function VisitWeight(hopsLeft: nat, degree: nat): nat {
    if hopsLeft == 0 then 1 else 1 + Repeat(degree, VisitWeight(hopsLeft - 1, degree))
  }

  ghost function QueueWeight(queue: seq<Visit>, config: Config, degree: nat): nat {
    if queue == [] then 0
    else VisitWeight(if queue[0].hop <= config.maxHop then config.maxHop - queue[0].hop else 0, degree)
         + QueueWeight(queue[1..], config, degree)
  }

  lemma RepeatMonotone(a: nat, b: nat, weight: nat)
    requires a <= b
    ensures Repeat(a, weight) <= Repeat(b, weight)
  {
  }

  lemma {:induction false} QueueWeightAppend(queue: seq<Visit>, visit: Visit, config: Config, degree: nat)
    requires visit.hop <= config.maxHop
    ensures QueueWeight(queue + [visit], config, degree)
         == QueueWeight(queue, config, degree) + VisitWeight(config.maxHop - visit.hop, degree)
  {
    if queue == [] {
      assert [visit][1..] == [];
    } else {
      assert (queue + [visit])[1..] == queue[1..] + [visit];
      QueueWeightAppend(queue[1..], visit, config, degree);
    }
  }

  lemma QueueWeightHead(current: Visit, rest: seq<Visit>, config: Config, degree: nat)
    requires current.hop <= config.maxHop
    ensures QueueWeight([current] + rest, config, degree) > QueueWeight(rest, config, degree)
    ensures current.hop < config.maxHop ==>
      QueueWeight([current] + rest, config, degree)
      == 1 + Repeat(degree, VisitWeight(config.maxHop - current.hop - 1, degree)) + QueueWeight(rest, config, degree)
  {
    assert ([current] + rest)[1..] == rest;
  }

  lemma PendingAppend(queue: seq<Visit>, visit: Visit)
    ensures forall p :: Pending(queue, p) ==> Pending(queue + [visit], p)
    ensures Pending(queue + [visit], visit.path)
  {
    var longer := queue + [visit];
    forall p | Pending(queue, p) ensures Pending(longer, p) {
      var i :| 0 <= i < |queue| && queue[i].path == p;
      assert longer[i].path == p;
    }
    assert longer[|queue|].path == visit.path;
  }

  /** Visits were only appended, and every path newly seen is on the queue. */
  ghost predicate Appended(queue0: seq<Visit>, seen0: set<seq<Slug>>, queue: seq<Visit>, seen: set<seq<Slug>>) {
    && seen0 <= seen && queue0 <= queue
    && (forall p :: p in seen ==> p in seen0 || Pending(queue, p))
  }

  lemma AppendedStep(queue0: seq<Visit>, seen0: set<seq<Slug>>, queue: seq<Visit>, seen: set<seq<Slug>>, visit: Visit)
    requires Appended(queue0, seen0, queue, seen)
    ensures Appended(queue0, seen0, queue + [visit], seen + {visit.path})
  {
    PendingAppend(queue, visit);
  }

  ghost predicate AllFollowed(config: Config, admitted: set<Slug>, seen: set<seq<Slug>>, p: seq<Slug>,
        names: seq<Slug>, n: nat)
    requires n <= |names|
  {
    forall j :: 0 <= j < n ==> Followed(config, admitted, seen, p, names[j])
  }

  lemma AllFollowedStep(config: Config, before: set<Slug>, after: set<Slug>,
                        seen: set<seq<Slug>>, more: set<seq<Slug>>, p: seq<Slug>, names: seq<Slug>, n: nat)
    requires n < |names| && AllFollowed(config, before, seen, p, names, n) && Followed(config, after, more, p, names[n])
    requires seen <= more && Grows(config, before, after)
    ensures AllFollowed(config, after, more, p, names, n + 1)
  {
    forall j | 0 <= j < n ensures Followed(config, after, more, p, names[j]) {
      assert Followed(config, before, seen, p, names[j]);
    }
  }

  lemma AllFollowedCloses(g: Graph, config: Config, admitted: set<Slug>, seen: set<seq<Slug>>, p: seq<Slug>,
        names: seq<Slug>)
    requires SimplePath(g, p) && forall v :: v in g[Last(p)] ==> v in names
    requires AllFollowed(config, admitted, seen, p, names, |names|)
    ensures Closes(g, config, admitted, seen, p)
  {
  }

  lemma SortedNoRepeats(s: seq<string>, bound: set<string>)
    requires Sorted(s) && forall x :: x in s ==> x in bound
    ensures |s| <= |bound|
  {
    if s != [] {
      var last := s[|s| - 1];
      forall x | x in s[..|s| - 1] ensures x in bound - {last} {
        Trichotomy(x, last);
      }
      SortedNoRepeats(s[..|s| - 1], bound - {last});
    }
  }

  /** One edge of the inner loop. */
  method FollowEdge(g: Graph, config: Config, seed: Slug, current: Visit, nextSlug: Slug,
                    admitted0: set<Slug>, found0: Direction, ghost seen: set<seq<Slug>>)
    returns (admitted: set<Slug>, found: Direction, visits: seq<Visit>)
    requires Closed(g)
    requires Mapped(g, config, admitted0, seed, found0, seen)
    requires VisitOf(g, config, seed, current) && current.path in seen && current.hop < config.maxHop
    requires nextSlug in g[current.slug]
    ensures Grows(config, admitted0, admitted) && admitted <= admitted0 + {nextSlug}
    ensures visits == [] ==> Mapped(g, config, admitted, seed, found, seen)
                             && Followed(config, admitted, seen, current.path, nextSlug)
    ensures visits != [] ==> |visits| == 1 && VisitOf(g, config, seed, visits[0])
                             && visits[0].path == current.path + [nextSlug]
                             && Mapped(g, config, admitted, seed, found, seen + {visits[0].path})
  {
    admitted, found, visits := admitted0, found0, [];
    if nextSlug in current.path { return; }
    var next := Follow(g, config, current, nextSlug);
    FollowVisit(g, config, seed, current, nextSlug);
    admitted := Ensure(admitted, nextSlug, config);
    MappedGrows(g, config, admitted0, admitted, seed, found, seen);
    if nextSlug !in admitted { return; }
    assert Within(next.path, admitted) by {
      assert Recorded(g, config, admitted0, seed, found0, current.path);
    }
    RecordStep(g, config, admitted, seed, found, seen, next.path);
    found := Improve(found, nextSlug, EvidenceAt(config, seed, next));
    visits := [next];
  }

  method Neighbours(g: Graph, slug: Slug) returns (names: seq<Slug>)
    requires slug in g && g[slug].Keys <= g.Keys
    ensures forall v :: v in names <==> v in g[slug]
    ensures |names| <= |g|
  {
    names := SortedKeys(g[slug].Keys);
    SortedNoRepeats(names, g.Keys);
  }

  /** What following edges keeps, with the queue: everything above, and the queue's weight bounded. */
  ghost predicate Searching(g: Graph, config: Config, admitted: set<Slug>, seed: Slug, found: Direction,
                            queue: seq<Visit>, seen: set<seq<Slug>>)
  {
    && admitted <= g.Keys
    && Mapped(g, config, admitted, seed, found, seen)
    && Queued(g, config, seed, queue, seen)
  }

  /** One edge of the inner loop, with the visit it queues. */
  method QueueEdge(g: Graph, config: Config, seed: Slug, current: Visit, nextSlug: Slug,
                   admitted0: set<Slug>, found0: Direction, queue0: seq<Visit>, ghost seen0: set<seq<Slug>>)
    returns (admitted: set<Slug>, found: Direction, queue: seq<Visit>, ghost seen: set<seq<Slug>>)
    requires Closed(g) && Searching(g, config, admitted0, seed, found0, queue0, seen0)
    requires VisitOf(g, config, seed, current) && current.path in seen0 && current.hop < config.maxHop
    requires nextSlug in g[current.slug]
    ensures Searching(g, config, admitted, seed, found, queue, seen)
    ensures Grows(config, admitted0, admitted) && Appended(queue0, seen0, queue, seen)
    ensures Followed(config, admitted, seen, current.path, nextSlug)
    ensures QueueWeight(queue, config, |g|)
         <= QueueWeight(queue0, config, |g|) + VisitWeight(config.maxHop - current.hop - 1, |g|)
  {
    var visits;
    admitted, found, visits := FollowEdge(g, config, seed, current, nextSlug, admitted0, found0, seen0);
    EdgeInside(g, seed, config, current, nextSlug, admitted0, admitted);
    if visits == [] {
      NoVisit(g, config, admitted, seed, found, queue0, seen0);
      return admitted, found, queue0, seen0;
    }
    PushVisit(g, config, admitted, seed, found, queue0, seen0, visits[0]);
    return admitted, found, queue0 + [visits[0]], seen0 + {visits[0].path};
  }

  lemma EdgeInside(g: Graph, seed: Slug, config: Config, current: Visit, nextSlug: Slug, admitted0: set<Slug>,
        admitted: set<Slug>)
    requires Closed(g) && VisitOf(g, config, seed, current) && nextSlug in g[current.slug]
    requires admitted0 <= g.Keys && admitted <= admitted0 + {nextSlug}
    ensures admitted <= g.Keys
  {
  }

  /** Queueing nothing. */
  lemma NoVisit(g: Graph, config: Config, admitted: set<Slug>, seed: Slug, found: Direction,
                queue: seq<Visit>, seen: set<seq<Slug>>)
    requires admitted <= g.Keys && Queued(g, config, seed, queue, seen) && Mapped(g, config, admitted, seed, found, seen)
    ensures Searching(g, config, admitted, seed, found, queue, seen) && Appended(queue, seen, queue, seen)
  {
  }

  /** Queueing one more visit. */
  lemma PushVisit(g: Graph, config: Config, admitted: set<Slug>, seed: Slug, found: Direction,
                  queue: seq<Visit>, seen: set<seq<Slug>>, visit: Visit)
    requires admitted <= g.Keys && Queued(g, config, seed, queue, seen) && VisitOf(g, config, seed, visit)
    requires Mapped(g, config, admitted, seed, found, seen + {visit.path})
    ensures Searching(g, config, admitted, seed, found, queue + [visit], seen + {visit.path})
    ensures Appended(queue, seen, queue + [visit], seen + {visit.path})
    ensures visit.hop <= config.maxHop
    ensures QueueWeight(queue + [visit], config, |g|)
         == QueueWeight(queue, config, |g|) + VisitWeight(config.maxHop - visit.hop, |g|)
  {
    QueueWeightAppend(queue, visit, config, |g|);
    AppendedStep(queue, seen, queue, seen, visit);
    QueuedAppend(g, config, seed, queue, seen, visit);
  }

  lemma AppendedTransitive(q0: seq<Visit>, s0: set<seq<Slug>>, q1: seq<Visit>, s1: set<seq<Slug>>, q2: seq<Visit>,
        s2: set<seq<Slug>>)
    requires Appended(q0, s0, q1, s1) && Appended(q1, s1, q2, s2)
    ensures Appended(q0, s0, q2, s2)
  {
    forall p | Pending(q1, p) ensures Pending(q2, p) {
      var i :| 0 <= i < |q1| && q1[i].path == p;
      assert q2[i].path == p;
    }
  }

  /** The inner loop: every neighbour of one visited memory, in text order. */
  method FollowNeighbours(g: Graph, config: Config, seed: Slug, current: Visit,
                          admitted0: set<Slug>, found0: Direction, queue0: seq<Visit>, ghost seen0: set<seq<Slug>>)
    returns (admitted: set<Slug>, found: Direction, queue: seq<Visit>, ghost seen: set<seq<Slug>>)
    requires Closed(g) && Searching(g, config, admitted0, seed, found0, queue0, seen0)
    requires VisitOf(g, config, seed, current) && current.path in seen0 && current.hop < config.maxHop
    ensures Searching(g, config, admitted, seed, found, queue, seen)
    ensures Grows(config, admitted0, admitted) && Appended(queue0, seen0, queue, seen)
    ensures Closes(g, config, admitted, seen, current.path)
    ensures QueueWeight(queue, config, |g|)
         <= QueueWeight(queue0, config, |g|) + Repeat(|g|, VisitWeight(config.maxHop - current.hop - 1, |g|))
  {
    admitted, found, queue, seen := admitted0, found0, queue0, seen0;
    var names := Neighbours(g, current.slug);
    ghost var unit := VisitWeight(config.maxHop - current.hop - 1, |g|);
    for i := 0 to |names|
      invariant Searching(g, config, admitted, seed, found, queue, seen)
      invariant Grows(config, admitted0, admitted) && Appended(queue0, seen0, queue, seen)
      invariant AllFollowed(config, admitted, seen, current.path, names, i)
      invariant QueueWeight(queue, config, |g|) <= QueueWeight(queue0, config, |g|) + Repeat(i, unit)
    {
      ghost var before, queueBefore, seenBefore := admitted, queue, seen;
      admitted, found, queue, seen := QueueEdge(g, config, seed, current, names[i], admitted, found, queue, seen);
      AppendedTransitive(queue0, seen0, queueBefore, seenBefore, queue, seen);
      AllFollowedStep(config, before, admitted, seenBefore, seen, current.path, names, i);
    }
    RepeatMonotone(|names|, |g|, unit);
    AllFollowedCloses(g, config, admitted, seen, current.path, names);
  }

  /** Every path seen is either still queued or fully followed. */
  ghost predicate Progressed(g: Graph, config: Config, admitted: set<Slug>, queue: seq<Visit>, seen: set<seq<Slug>>) {
    forall p :: p in seen ==> SimplePath(g, p) && (Pending(queue, p) || Closes(g, config, admitted, seen, p))
  }

  lemma ProgressedStep(g: Graph, config: Config, current: Visit, before: set<Slug>, after: set<Slug>,
                       rest: seq<Visit>, queue: seq<Visit>, seen: set<seq<Slug>>, more: set<seq<Slug>>)
    requires Progressed(g, config, before, [current] + rest, seen)
    requires Grows(config, before, after) && Appended(rest, seen, queue, more)
    requires SimplePath(g, current.path) && Closes(g, config, after, more, current.path)
    requires forall p :: p in more ==> SimplePath(g, p)
    ensures Progressed(g, config, after, queue, more)
  {
    forall p | p in more ensures Pending(queue, p) || Closes(g, config, after, more, p) {
      if p in seen && p != current.path {
        if Pending([current] + rest, p) {
          var i :| 0 <= i < |rest| + 1 && ([current] + rest)[i].path == p;
          assert rest[i - 1].path == p && queue[i - 1] == rest[i - 1];
        } else if |p| - 1 < config.maxHop {
          forall v | v in g[Last(p)] ensures Followed(config, after, more, p, v) {
            assert Followed(config, before, seen, p, v);
          }
        }
      }
    }
  }

  /** Once the queue has run dry, every path inside the admitted set has been seen, and unless the cap was hit, every path. */
  lemma {:induction false} AllSeen(g: Graph, config: Config, admitted: set<Slug>, seed: Slug, found: Direction,
                                   seen: set<seq<Slug>>, p: seq<Slug>)
    requires Mapped(g, config, admitted, seed, found, seen)
    requires Progressed(g, config, admitted, [], seen) && [seed] in seen
    requires PathFrom(g, config, seed, p)
    requires Within(p, admitted) || |admitted| < config.maxCandidates
    ensures p in seen
  {
    if |p| == 1 {
      assert p == [seed];
    } else {
      AllSeen(g, config, admitted, seed, found, seen, Init(p));
      assert p == Init(p) + [Last(p)];
      assert Closes(g, config, admitted, seen, Init(p));
      assert Followed(config, admitted, seen, Init(p), Last(p));
    }
  }

  /** No later admission can open a path this direction has missed. */
  ghost predicate Settled(g: Graph, config: Config, admitted: set<Slug>, seed: Slug) {
    |admitted| >= config.maxCandidates || forall p :: PathFrom(g, config, seed, p) ==> Within(p, admitted)
  }

  lemma SearchComplete(g: Graph, config: Config, admitted: set<Slug>, seed: Slug, found: Direction,
        seen: set<seq<Slug>>)
    requires Mapped(g, config, admitted, seed, found, seen)
    requires Progressed(g, config, admitted, [], seen) && [seed] in seen
    ensures Exact(g, config, admitted, seed, found) && Settled(g, config, admitted, seed)
  {
    forall p | PathFrom(g, config, seed, p) && (Within(p, admitted) || |admitted| < config.maxCandidates)
      ensures Within(p, admitted) && Covered(g, config, found, p)
    {
      AllSeen(g, config, admitted, seed, found, seen, p);
      assert Recorded(g, config, admitted, seed, found, p);
    }
  }

  lemma SearchStart(g: Graph, config: Config, admitted: set<Slug>, seed: Slug)
    requires admitted <= g.Keys && seed in admitted
    ensures
      var found, queue, seen := map[seed := Evidence(seed, 0, 0.5, [seed])], [Visit(seed, 0, 1.0, [seed])], {[seed]};
      Searching(g, config, admitted, seed, found, queue, seen) && Progressed(g, config, admitted, queue, seen)
  {
    assert [Visit(seed, 0, 1.0, [seed])][0].path == [seed];
  }

  lemma SearchTail(g: Graph, config: Config, admitted: set<Slug>, seed: Slug, found: Direction,
                   queue: seq<Visit>, seen: set<seq<Slug>>)
    requires Searching(g, config, admitted, seed, found, queue, seen) && queue != []
    ensures Searching(g, config, admitted, seed, found, queue[1..], seen)
    ensures VisitOf(g, config, seed, queue[0]) && queue[0].path in seen
    ensures queue == [queue[0]] + queue[1..]
  {
  }

  /** One turn of the queue loop. */
  method VisitNext(g: Graph, config: Config, seed: Slug, current: Visit,
                   admitted0: set<Slug>, found0: Direction, rest: seq<Visit>, ghost seen0: set<seq<Slug>>)
    returns (admitted: set<Slug>, found: Direction, queue: seq<Visit>, ghost seen: set<seq<Slug>>)
    requires Closed(g) && Searching(g, config, admitted0, seed, found0, rest, seen0)
    requires VisitOf(g, config, seed, current) && current.path in seen0
    requires Progressed(g, config, admitted0, [current] + rest, seen0)
    ensures Searching(g, config, admitted, seed, found, queue, seen)
    ensures Progressed(g, config, admitted, queue, seen)
    ensures Grows(config, admitted0, admitted) && seen0 <= seen
    ensures QueueWeight(queue, config, |g|) < QueueWeight([current] + rest, config, |g|)
  {
    admitted, found, queue, seen := admitted0, found0, rest, seen0;
    QueueWeightHead(current, rest, config, |g|);
    if current.hop < config.maxHop {
      admitted, found, queue, seen := FollowNeighbours(g, config, seed, current, admitted, found, rest, seen);
    }
    ProgressedStep(g, config, current, admitted0, admitted, rest, queue, seen0, seen);
  }

  /** One seed: breadth-first over all its simple paths of at most `maxHop` hops. */
  method SearchSeed(g: Graph, config: Config, seed: Slug, admitted0: set<Slug>)
    returns (admitted: set<Slug>, found: Direction)
    requires Closed(g) && admitted0 <= g.Keys && seed in admitted0
    ensures Grows(config, admitted0, admitted) && admitted <= g.Keys
    ensures Exact(g, config, admitted, seed, found) && Settled(g, config, admitted, seed)
  {
    admitted := admitted0;
    found := map[seed := Evidence(seed, 0, 0.5, [seed])];
    var queue := [Visit(seed, 0, 1.0, [seed])];
    ghost var seen := {[seed]};
    SearchStart(g, config, admitted, seed);
    while queue != []
      invariant Searching(g, config, admitted, seed, found, queue, seen)
      invariant Grows(config, admitted0, admitted)
      invariant [seed] in seen && Progressed(g, config, admitted, queue, seen)
      decreases QueueWeight(queue, config, |g|)
    {
      SearchTail(g, config, admitted, seed, found, queue, seen);
      var current, rest := queue[0], queue[1..];
      admitted, found, queue, seen := VisitNext(g, config, seed, current, admitted, found, rest, seen);
    }
    SearchComplete(g, config, admitted, seed, found, seen);
  }

  lemma ExactKept(g: Graph, config: Config, before: set<Slug>, after: set<Slug>, seed: Slug, found: Direction)
    requires Exact(g, config, before, seed, found) && Settled(g, config, before, seed)
    requires Grows(config, before, after)
    ensures Exact(g, config, after, seed, found) && Settled(g, config, after, seed)
  {
    forall p | PathFrom(g, config, seed, p) && Within(p, after) ensures Covered(g, config, found, p) {
      assert Within(p, before);
    }
  }

  ghost predicate AllExact(g: Graph, config: Config, admitted: set<Slug>, directions: map<Slug, Direction>) {
    forall s :: s in directions ==> Exact(g, config, admitted, s, directions[s]) && Settled(g, config, admitted, s)
  }

  lemma AllKept(g: Graph, config: Config, before: set<Slug>, after: set<Slug>, directions: map<Slug, Direction>)
    requires AllExact(g, config, before, directions) && Grows(config, before, after)
    ensures AllExact(g, config, after, directions)
  {
    forall s | s in directions ensures Exact(g, config, after, s, directions[s]) && Settled(g, config, after, s) {
      ExactKept(g, config, before, after, s, directions[s]);
    }
  }

  /**
   * `expandGraph`: the admitted memories and, for every seed processed before the cap ended the
   * seed loop, its direction. Each direction is exact for the final admitted set.
   */
  method ExpandGraph(memories: seq<Memory>, seeds: seq<Slug>, config: Config)
    returns (g: Graph, admitted: set<Slug>, directions: map<Slug, Direction>, processed: nat)
    requires forall s :: s in seeds ==> exists m :: m in memories && m.slug == s
    ensures g.Keys == (set m | m in memories :: m.slug) && Joins(g, Links(memories), config)
    ensures |admitted| <= config.maxCandidates && admitted <= g.Keys
    ensures processed <= |seeds| && directions.Keys == set s | s in seeds[..processed]
    ensures processed < |seeds| ==> |admitted| == config.maxCandidates && seeds[processed] !in admitted
    ensures forall s :: s in directions ==> Exact(g, config, admitted, s, directions[s])
    ensures |admitted| < config.maxCandidates ==>
      processed == |seeds| && forall s, p :: s in directions && PathFrom(g, config, s, p) ==> Within(p, admitted)
  {
    g := BuildAdjacency(memories, config);
    admitted, directions, processed := {}, map[], 0;
    while processed < |seeds|
      invariant |admitted| <= config.maxCandidates && admitted <= g.Keys
      invariant processed <= |seeds| && directions.Keys == set s | s in seeds[..processed]
      invariant AllExact(g, config, admitted, directions)
    {
      var seed := seeds[processed];
      ghost var before := admitted;
      assert seed in seeds && seed in g;
      admitted := Ensure(admitted, seed, config);
      if seed !in admitted { break; }
      var found;
      admitted, found := SearchSeed(g, config, seed, admitted);
      AllKept(g, config, before, admitted, directions);
      directions := directions[seed := found];
      assert seeds[..processed + 1] == seeds[..processed] + [seed];
      processed := processed + 1;
    }
  }

  /** An exact direction is unique: which memories it reaches, how strongly and in how many hops. */
  lemma ExactUnique(g: Graph, config: Config, admitted: set<Slug>, seed: Slug, a: Direction, b: Direction)
    requires Exact(g, config, admitted, seed, a) && Exact(g, config, admitted, seed, b)
    ensures a.Keys == b.Keys
    ensures forall v :: v in a ==> a[v].pathStrength == b[v].pathStrength && a[v].hop == b[v].hop
  {
    forall v | v in a ensures v in b && a[v].pathStrength == b[v].pathStrength && a[v].hop == b[v].hop {
      assert Covered(g, config, b, a[v].path);
      assert Witnessed(g, config, admitted, seed, v, b[v]);
      assert Covered(g, config, a, b[v].path);
    }
    forall v | v in b ensures v in a {
      assert Covered(g, config, a, b[v].path);
    }
  }

  /** A memory is in a direction exactly when a path inside the admitted set leads there. */
  lemma ExactReach(g: Graph, config: Config, admitted: set<Slug>, seed: Slug, found: Direction, v: Slug)
    requires Exact(g, config, admitted, seed, found)
    ensures v in found <==> exists p :: PathFrom(g, config, seed, p) && Within(p, admitted) && Last(p) == v
  {
    if v in found {
      assert PathFrom(g, config, seed, found[v].path);
    }
    if p :| PathFrom(g, config, seed, p) && Within(p, admitted) && Last(p) == v {
      assert Covered(g, config, found, p);
    }
  }
}
