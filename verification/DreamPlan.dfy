/** Dream proposals: what the gateway accepts of them, and the operations it makes of what it accepted. */
module DreamPlan {
  import opened Options
  import opened MemoryRecords

  datatype Proposal =
    | Keep(target: Slug, version: Version)
    | Rewrite(target: Slug, version: Version, kind: Option<string>, description: Option<string>, content: Option<string>)
    | Merge(target: Slug, version: Version, sourceSlugs: seq<Slug>, sourceVersions: map<Slug, Version>,
            newKind: string, newDescription: string, newContent: string)
    | Retire(target: Slug, version: Version, replacement: Slug)

  /** The frozen memories of the Agent. */
  type Snapshot = map<Slug, Stored>

  /**
   * What the validator asks of others: whether the fields have the right form, what a content says apart from its
   * links, which memories it links to, and the fact a memory stands for.
   */
  datatype Context = Context(wellFormed: Proposal -> bool, semantic: string -> string, links: string -> set<Slug>,
                             facts: map<Slug, string>)

  // -------------------------------------------------------- what is accepted

  predicate Frozen(snapshot: Snapshot, slug: Slug, version: Version) {
    slug in snapshot && Sha256(snapshot[slug]) == version
  }

  function Writes(p: Proposal): set<Slug> {
    match p
    case Keep(_, _) => {}
    case Merge(target, _, sourceSlugs, _, _, _, _) => {target} + set s | s in sourceSlugs
    case _ => {p.target}
  }

  predicate SameFact(a: Slug, b: Slug, facts: map<Slug, string>) {
    a in facts && b in facts && facts[a] == facts[b]
  }

  ghost predicate Distinct<T>(s: seq<T>) { forall i, j :: 0 <= i < j < |s| ==> s[i] != s[j] }

  /** One member of a merge: frozen, active, and at the version the proposal names. */
  predicate Member(p: Proposal, slug: Slug, snapshot: Snapshot)
    requires p.Merge?
  {
    slug in snapshot && snapshot[slug].status == Active
    && slug in p.sourceVersions && p.sourceVersions[slug] == Sha256(snapshot[slug])
  }

  /** All members are the same fact, or all say the same. */
  ghost predicate OneIdentity(p: Proposal, snapshot: Snapshot, c: Context)
    requires p.Merge? && forall s :: s in p.sourceSlugs ==> s in snapshot
  {
    || (forall s, t :: s in p.sourceSlugs && t in p.sourceSlugs ==> SameFact(s, t, c.facts))
    || (forall s, t :: s in p.sourceSlugs && t in p.sourceSlugs ==>
          c.semantic(snapshot[s].content) == c.semantic(snapshot[t].content))
  }

  /** Every link that leaves the group is in the merged content. */
  ghost predicate LinksKept(p: Proposal, snapshot: Snapshot, c: Context)
    requires p.Merge? && forall s :: s in p.sourceSlugs ==> s in snapshot
  {
    forall s, l :: s in p.sourceSlugs && l in c.links(snapshot[s].content) && l !in p.sourceSlugs ==> l in c.links(p.newContent)
  }

  ghost predicate GoodMerge(p: Proposal, snapshot: Snapshot, c: Context)
    requires p.Merge?
  {
    && 2 <= |p.sourceSlugs| <= 16 && Distinct(p.sourceSlugs) && p.target in p.sourceSlugs
    && |p.sourceVersions| == |p.sourceSlugs|
    && (forall s :: s in p.sourceSlugs ==> Member(p, s, snapshot))
    && OneIdentity(p, snapshot, c) && LinksKept(p, snapshot, c) && SaidBefore(p, snapshot, c)
  }

  /** What is asked of a proposal by itself. */
  ghost predicate Good(p: Proposal, snapshot: Snapshot, c: Context) {
    && c.wellFormed(p) && Frozen(snapshot, p.target, p.version)
    && match p
       case Keep(_, _) => true
       case Rewrite(_, _, kind, description, content) =>
         && (kind.Some? || description.Some? || content.Some?)
         && (content.Some? ==> c.semantic(content.value) == c.semantic(snapshot[p.target].content))
       case Retire(target, _, replacement) =>
         && replacement in snapshot && snapshot[replacement].status == Active && replacement != target
         && (SameFact(target, replacement, c.facts)
             || c.semantic(snapshot[target].content) == c.semantic(snapshot[replacement].content))
       case Merge(_, _, _, _, _, _, _) => GoodMerge(p, snapshot, c)
  }

  /** What is asked of the proposals together: no memory is written by two of them. */
  ghost predicate Apart(proposals: seq<Proposal>) {
    forall i, j :: 0 <= i < j < |proposals| ==> Writes(proposals[i]) !! Writes(proposals[j])
  }

  ghost predicate AllGood(proposals: seq<Proposal>, snapshot: Snapshot, c: Context) {
    forall i :: 0 <= i < |proposals| ==> Good(proposals[i], snapshot, c)
  }

  function Claims(proposals: seq<Proposal>): set<Slug> {
    if proposals == [] then {} else Claims(proposals[..|proposals| - 1]) + Writes(proposals[|proposals| - 1])
  }

  lemma {:induction false} ClaimedBy(proposals: seq<Proposal>, s: Slug)
    ensures s in Claims(proposals) <==> exists i :: 0 <= i < |proposals| && s in Writes(proposals[i])
  {
    if proposals != [] {
      var n := |proposals| - 1;
      ClaimedBy(proposals[..n], s);
      if exists i :: 0 <= i < n && s in Writes(proposals[..n][i]) {
        var i :| 0 <= i < n && s in Writes(proposals[..n][i]);
        assert s in Writes(proposals[i]);
      }
      if exists i :: 0 <= i < |proposals| && s in Writes(proposals[i]) {
        var i :| 0 <= i < |proposals| && s in Writes(proposals[i]);
        if i < n { assert s in Writes(proposals[..n][i]); }
      }
    }
  }

  lemma ApartMore(proposals: seq<Proposal>, p: Proposal)
    requires Apart(proposals)
    ensures Apart(proposals + [p]) <==> Claims(proposals) !! Writes(p)
  {
    var more := proposals + [p];
    if Claims(proposals) !! Writes(p) {
      forall i, j | 0 <= i < j < |more| ensures Writes(more[i]) !! Writes(more[j]) {
        forall s | s in Writes(more[i]) ensures s !in Writes(more[j]) {
          if j == |proposals| { ClaimedBy(proposals, s); }
        }
      }
    } else {
      var s :| s in Claims(proposals) && s in Writes(p);
      ClaimedBy(proposals, s);
      var i :| 0 <= i < |proposals| && s in Writes(proposals[i]);
      assert s in Writes(more[i]) && s in Writes(more[|proposals|]);
    }
  }

  // --------------------------------------------------------- the validator

  function Semantics(slugs: seq<Slug>, snapshot: Snapshot, c: Context): set<string>
    requires forall s :: s in slugs ==> s in snapshot
  {
    if slugs == [] then {}
    else
      var n := |slugs| - 1;
      Semantics(slugs[..n], snapshot, c) + {c.semantic(snapshot[slugs[n]].content)}
  }

  function Facts(slugs: seq<Slug>, c: Context): set<string> {
    if slugs == [] then {}
    else
      var n := |slugs| - 1;
      Facts(slugs[..n], c) + if slugs[n] in c.facts then {c.facts[slugs[n]]} else {}
  }

  function Outgoing(slugs: seq<Slug>, snapshot: Snapshot, c: Context): set<Slug>
    requires forall s :: s in slugs ==> s in snapshot
  {
    if slugs == [] then {}
    else
      var n := |slugs| - 1;
      Outgoing(slugs[..n], snapshot, c) + c.links(snapshot[slugs[n]].content)
  }

  lemma {:induction false} SemanticsHas(slugs: seq<Slug>, snapshot: Snapshot, c: Context, x: string)
    requires forall s :: s in slugs ==> s in snapshot
    ensures x in Semantics(slugs, snapshot, c) <==> exists s :: s in slugs && c.semantic(snapshot[s].content) == x
  {
    if slugs != [] {
      var n := |slugs| - 1;
      SemanticsHas(slugs[..n], snapshot, c, x);
      assert slugs == slugs[..n] + [slugs[n]];
    }
  }

  lemma {:induction false} FactsHas(slugs: seq<Slug>, c: Context, x: string)
    ensures x in Facts(slugs, c) <==> exists s :: s in slugs && s in c.facts && c.facts[s] == x
  {
    if slugs != [] {
      var n := |slugs| - 1;
      FactsHas(slugs[..n], c, x);
      assert slugs == slugs[..n] + [slugs[n]];
    }
  }

  lemma {:induction false} OutgoingHas(slugs: seq<Slug>, snapshot: Snapshot, c: Context, l: Slug)
    requires forall s :: s in slugs ==> s in snapshot
    ensures l in Outgoing(slugs, snapshot, c) <==> exists s :: s in slugs && l in c.links(snapshot[s].content)
  {
    if slugs != [] {
      var n := |slugs| - 1;
      OutgoingHas(slugs[..n], snapshot, c, l);
      assert slugs == slugs[..n] + [slugs[n]];
    }
  }

  lemma OneElement<T>(s: set<T>)
    ensures |s| == 1 <==> s != {} && forall a, b :: a in s && b in s ==> a == b
  {
    if |s| == 1 {
      var x :| x in s;
      assert |s - {x}| == 0;
      forall a | a in s ensures a == x { assert a != x ==> a in s - {x}; }
    } else if s != {} {
      var x :| x in s;
      assert |s - {x}| != 0;
      var y :| y in s - {x};
    }
  }

  /** Counting distinct facts and distinct contents decides whether the members are one. */
  lemma IdentityCounted(p: Proposal, snapshot: Snapshot, c: Context)
    requires p.Merge? && p.sourceSlugs != [] && forall s :: s in p.sourceSlugs ==> s in snapshot
    ensures OneIdentity(p, snapshot, c) <==>
      || (|Facts(p.sourceSlugs, c)| == 1 && forall s :: s in p.sourceSlugs ==> s in c.facts)
      || |Semantics(p.sourceSlugs, snapshot, c)| == 1
  {
    var slugs := p.sourceSlugs;
    assert slugs[0] in slugs;
    FactsCounted(slugs, c);
    SemanticsCounted(slugs, snapshot, c);
  }

  lemma FactsCounted(slugs: seq<Slug>, c: Context)
    requires slugs != []
    ensures (forall s, t :: s in slugs && t in slugs ==> SameFact(s, t, c.facts)) <==>
      |Facts(slugs, c)| == 1 && forall s :: s in slugs ==> s in c.facts
  {
    OneElement(Facts(slugs, c));
    assert slugs[0] in slugs;
    if forall s, t :: s in slugs && t in slugs ==> SameFact(s, t, c.facts) {
      forall s | s in slugs ensures s in c.facts { assert SameFact(s, s, c.facts); }
      FactsHas(slugs, c, c.facts[slugs[0]]);
      forall a | a in Facts(slugs, c) ensures a == c.facts[slugs[0]] {
        FactsHas(slugs, c, a);
        var s :| s in slugs && s in c.facts && c.facts[s] == a;
        assert SameFact(s, slugs[0], c.facts);
      }
    } else if forall s :: s in slugs ==> s in c.facts {
      var s, t :| s in slugs && t in slugs && !SameFact(s, t, c.facts);
      FactsHas(slugs, c, c.facts[s]);
      FactsHas(slugs, c, c.facts[t]);
    }
  }

  lemma SemanticsCounted(slugs: seq<Slug>, snapshot: Snapshot, c: Context)
    requires slugs != [] && forall s :: s in slugs ==> s in snapshot
    ensures (forall s, t :: s in slugs && t in slugs ==>
        c.semantic(snapshot[s].content) == c.semantic(snapshot[t].content)) <==> |Semantics(slugs, snapshot, c)| == 1
  {
    OneElement(Semantics(slugs, snapshot, c));
    assert slugs[0] in slugs;
    SemanticsHas(slugs, snapshot, c, c.semantic(snapshot[slugs[0]].content));
    if forall s, t :: s in slugs && t in slugs ==> c.semantic(snapshot[s].content) == c.semantic(snapshot[t].content) {
      forall a | a in Semantics(slugs, snapshot, c) ensures a == c.semantic(snapshot[slugs[0]].content) {
        SemanticsHas(slugs, snapshot, c, a);
      }
    } else {
      var s, t :| s in slugs && t in slugs && c.semantic(snapshot[s].content) != c.semantic(snapshot[t].content);
      SemanticsHas(slugs, snapshot, c, c.semantic(snapshot[s].content));
      SemanticsHas(slugs, snapshot, c, c.semantic(snapshot[t].content));
    }
  }

  method IsDistinct(slugs: seq<Slug>) returns (distinct: bool)
    ensures distinct <==> Distinct(slugs)
  {
    var seen: set<Slug> := {};
    for i := 0 to |slugs|
      invariant Distinct(slugs[..i]) && seen == set s | s in slugs[..i]
    {
      if slugs[i] in seen {
        var j :| 0 <= j < |slugs[..i]| && slugs[..i][j] == slugs[i];
        assert slugs[j] == slugs[i];
        return false;
      }
      assert slugs[..i + 1] == slugs[..i] + [slugs[i]];
      seen := seen + {slugs[i]};
    }
    assert slugs[..|slugs|] == slugs;
    return true;
  }

  /** The members of a merge, one after the other; `claimed` grows by each. */
  method TakeMembers(p: Proposal, snapshot: Snapshot, claimed: set<Slug>) returns (ok: bool, more: set<Slug>)
    requires p.Merge? && p.target in claimed && Distinct(p.sourceSlugs)
    ensures ok <==> forall s :: s in p.sourceSlugs ==> Member(p, s, snapshot) && (s in claimed ==> s == p.target)
    ensures ok ==> more == claimed + set s | s in p.sourceSlugs
  {
    more := claimed;
    for i := 0 to |p.sourceSlugs|
      invariant more == claimed + set s | s in p.sourceSlugs[..i]
      invariant forall s :: s in p.sourceSlugs[..i] ==> Member(p, s, snapshot) && (s in claimed ==> s == p.target)
    {
      var slug := p.sourceSlugs[i];
      assert slug in p.sourceSlugs && slug !in p.sourceSlugs[..i];
      if !Member(p, slug, snapshot) { return false, more; }
      if slug in more && slug != p.target { return false, more; }
      assert p.sourceSlugs[..i + 1] == p.sourceSlugs[..i] + [slug];
      more := more + {slug};
    }
    assert p.sourceSlugs[..|p.sourceSlugs|] == p.sourceSlugs;
    return true, more;
  }

  /** What the members say, which facts they are, and where they link to. */
  method Collect(slugs: seq<Slug>, snapshot: Snapshot, c: Context)
    returns (semantics: set<string>, facts: set<string>, outgoing: set<Slug>)
    requires forall s :: s in slugs ==> s in snapshot
    ensures semantics == Semantics(slugs, snapshot, c) && facts == Facts(slugs, c)
    ensures outgoing == Outgoing(slugs, snapshot, c)
  {
    semantics, facts, outgoing := {}, {}, {};
    for i := 0 to |slugs|
      invariant semantics == Semantics(slugs[..i], snapshot, c) && facts == Facts(slugs[..i], c)
      invariant outgoing == Outgoing(slugs[..i], snapshot, c)
    {
      assert slugs[..i + 1][..i] == slugs[..i];
      var source := snapshot[slugs[i]];
      semantics := semantics + {c.semantic(source.content)};
      facts := facts + if slugs[i] in c.facts then {c.facts[slugs[i]]} else {};
      outgoing := outgoing + c.links(source.content);
    }
    assert slugs[..|slugs|] == slugs;
  }

  ghost predicate SaidBefore(p: Proposal, snapshot: Snapshot, c: Context)
    requires p.Merge? && forall s :: s in p.sourceSlugs ==> s in snapshot
  {
    exists s :: s in p.sourceSlugs && c.semantic(snapshot[s].content) == c.semantic(p.newContent)
  }

  method CheckLinks(p: Proposal, snapshot: Snapshot, c: Context, outgoing: set<Slug>) returns (ok: bool)
    requires p.Merge? && forall s :: s in p.sourceSlugs ==> s in snapshot
    requires outgoing == Outgoing(p.sourceSlugs, snapshot, c)
    ensures ok <==> LinksKept(p, snapshot, c)
  {
    var proposed := c.links(p.newContent);
    ok := forall l :: l in outgoing ==> l in p.sourceSlugs || l in proposed;
    forall l { OutgoingHas(p.sourceSlugs, snapshot, c, l); }
  }

  method CheckContents(p: Proposal, snapshot: Snapshot, c: Context) returns (ok: bool)
    requires p.Merge? && p.sourceSlugs != [] && forall s :: s in p.sourceSlugs ==> s in snapshot
    ensures ok <==> (OneIdentity(p, snapshot, c) && LinksKept(p, snapshot, c) && SaidBefore(p, snapshot, c))
  {
    var slugs := p.sourceSlugs;
    var semantics, facts, outgoing := Collect(slugs, snapshot, c);
    IdentityCounted(p, snapshot, c);
    SemanticsHas(slugs, snapshot, c, c.semantic(p.newContent));
    var allFacts := forall s :: s in slugs ==> s in c.facts;
    var sameFact := |facts| == 1 && allFacts;
    if !sameFact && |semantics| != 1 { return false; }
    if c.semantic(p.newContent) !in semantics { return false; }
    ok := CheckLinks(p, snapshot, c, outgoing);
  }

  method CheckMerge(p: Proposal, snapshot: Snapshot, c: Context, claimed: set<Slug>) returns (ok: bool, more: set<Slug>)
    requires p.Merge? && p.target !in claimed
    ensures ok <==> GoodMerge(p, snapshot, c) && Writes(p) !! claimed
    ensures ok ==> more == claimed + Writes(p)
  {
    more := claimed + {p.target};
    var distinct := IsDistinct(p.sourceSlugs);
    if |p.sourceSlugs| < 2 || |p.sourceSlugs| > 16 || !distinct { return false, more; }
    if p.target !in p.sourceSlugs || |p.sourceVersions| != |p.sourceSlugs| { return false, more; }
    ok, more := TakeMembers(p, snapshot, more);
    if !ok {
      assert GoodMerge(p, snapshot, c) ==> exists s :: s in p.sourceSlugs && s in claimed + {p.target} && s != p.target;
      return;
    }
    ok := CheckContents(p, snapshot, c);
  }

  /** One proposal against what has been claimed before it. */
  method Check(p: Proposal, snapshot: Snapshot, c: Context, claimed: set<Slug>) returns (ok: bool, more: set<Slug>)
    ensures ok <==> Good(p, snapshot, c) && Writes(p) !! claimed
    ensures ok ==> more == claimed + Writes(p)
  {
    more := claimed;
    if !c.wellFormed(p) || !Frozen(snapshot, p.target, p.version) { return false, more; }
    if p.Keep? { return true, more; }
    if p.target in claimed { return false, more; }
    var target := snapshot[p.target];
    match p
    case Merge(_, _, _, _, _, _, _) => ok, more := CheckMerge(p, snapshot, c, claimed);
    case Rewrite(_, _, kind, description, content) =>
      more := claimed + {p.target};
      ok := (kind.Some? || description.Some? || content.Some?)
            && (content.Some? ==> c.semantic(content.value) == c.semantic(target.content));
    case Retire(_, _, replacement) =>
      more := claimed + {p.target};
      ok := replacement in snapshot && snapshot[replacement].status == Active && replacement != p.target
            && (SameFact(p.target, replacement, c.facts)
                || c.semantic(target.content) == c.semantic(snapshot[replacement].content));
    case Keep(_, _) =>
  }

  /** `validateDreamProposals`: accepts exactly the proposals that are good and write no memory twice. */
  method Validate(proposals: seq<Proposal>, snapshot: Snapshot, c: Context) returns (ok: bool)
    ensures ok <==> |proposals| <= 64 && AllGood(proposals, snapshot, c) && Apart(proposals)
  {
    if |proposals| > 64 { return false; }
    var claimed: set<Slug> := {};
    for i := 0 to |proposals|
      invariant AllGood(proposals[..i], snapshot, c) && Apart(proposals[..i]) && claimed == Claims(proposals[..i])
    {
      assert proposals[..i + 1] == proposals[..i] + [proposals[i]];
      ApartMore(proposals[..i], proposals[i]);
      ok, claimed := Check(proposals[i], snapshot, c, claimed);
      if !ok {
        ApartPrefix(proposals, i + 1);
        return;
      }
      assert proposals[..i + 1][..i] == proposals[..i];
    }
    assert proposals[..|proposals|] == proposals;
    return true;
  }

  lemma ApartPrefix(proposals: seq<Proposal>, n: nat)
    requires n <= |proposals|
    ensures Apart(proposals) ==> Apart(proposals[..n])
  {
  }
}
