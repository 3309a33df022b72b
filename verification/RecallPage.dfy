/** Token estimates and the packing of ranked memories into one page under a token budget. */
module RecallPage {

  // ------------------------------------------------------------ estimates

  function Utf8Size(c: char): nat {
    if c as int < 0x80 then 1 else if c as int < 0x800 then 2 else if c as int < 0x1_0000 then 3 else 4
  }

  function Bytes(text: string): nat {
    if text == [] then 0 else Utf8Size(text[0]) + Bytes(text[1..])
  }

  /** `max(1, ceil(bytes / 3))`. */
  function Estimate(text: string): (tokens: nat)
    ensures tokens >= 1
    ensures 3 * tokens >= Bytes(text)
  {
    var whole := (Bytes(text) + 2) / 3;
    if whole < 1 then 1 else whole
  }

  lemma {:induction false} BytesConcat(a: string, b: string)
    ensures Bytes(a + b) == Bytes(a) + Bytes(b)
  {
    if a == [] {
      assert a + b == b;
    } else {
      assert (a + b)[1..] == a[1..] + b;
      BytesConcat(a[1..], b);
    }
  }

  /** A text never costs more than its two halves. */
  lemma EstimateConcat(a: string, b: string)
    ensures Estimate(a + b) <= Estimate(a) + Estimate(b)
    ensures Estimate(a) <= Estimate(a + b)
  {
    BytesConcat(a, b);
  }

  // ---------------------------------------------------------- projections

  /** A ranked memory with its two texts: the description, and the first paragraph of the body. */
  datatype Item = Item(slug: string, kind: string, description: string, body: string, sameText: bool)

  datatype Level = Standard | Compact

  /** The standard projection adds the body unless there is none or it only repeats the description. */
  function Projection(item: Item, level: Level): string {
    if level == Compact || item.body == "" || item.sameText then item.description
    else item.description + "\n" + item.body
  }

  function Line(item: Item, level: Level): string {
    "- [[" + item.slug + "]] (" + item.kind + ") " + Projection(item, level) + "\n"
  }

  /** A line of a page, and what the two levels show of it. */
  lemma SampleLines(slug: string)
    ensures Line(Item(slug, "bug", "Short.", "Long.", false), Standard) == "- [[" + slug + "]] (bug) Short.\nLong.\n"
    ensures Line(Item(slug, "bug", "Short.", "Long.", false), Compact) == "- [[" + slug + "]] (bug) Short.\n"
    ensures Line(Item(slug, "bug", "Short.", "Short.", true), Standard) == "- [[" + slug + "]] (bug) Short.\n"
    ensures Line(Item(slug, "bug", "Short.", "", false), Standard) == "- [[" + slug + "]] (bug) Short.\n"
  {
  }

  function Cost(item: Item, level: Level): nat {
    Estimate(Line(item, level))
  }

  lemma CompactCheaper(item: Item)
    ensures Cost(item, Compact) <= Cost(item, Standard)
  {
    var head := "- [[" + item.slug + "]] (" + item.kind + ") ";
    var short, long := Projection(item, Compact), Projection(item, Standard);
    if short != long {
      assert long == short + ("\n" + item.body);
      BytesConcat(short, "\n" + item.body);
    }
    BytesConcat(head, short + "\n");
    BytesConcat(short, "\n");
    BytesConcat(head, long + "\n");
    BytesConcat(long, "\n");
    assert Line(item, Compact) == head + (short + "\n");
    assert Line(item, Standard) == head + (long + "\n");
  }

  /** A ranked memory as the packing sees it: its lines have been priced beforehand. */
  datatype Entry = Entry(item: Item, standardCost: nat, compactCost: nat)

  function Price(item: Item): Entry { Entry(item, Cost(item, Standard), Cost(item, Compact)) }

  function Prices(items: seq<Item>): seq<Entry> {
    seq(|items|, i requires 0 <= i < |items| => Price(items[i]))
  }

  // -------------------------------------------------------------- packing

  datatype Choice = Choice(entry: Entry, level: Level) {
    function Cost(): nat { if level == Standard then entry.standardCost else entry.compactCost }
  }

  datatype Page = Page(selected: seq<Choice>, remaining: seq<Entry>, contentTokens: nat)

  function Entries(selected: seq<Choice>): seq<Entry> {
    seq(|selected|, i requires 0 <= i < |selected| => selected[i].entry)
  }

  function ContentTokens(selected: seq<Choice>): nat {
    if selected == [] then 0
    else ContentTokens(selected[..|selected| - 1]) + selected[|selected| - 1].Cost()
  }

  ghost predicate Fullest(c: Choice, room: nat, budget: nat) {
    room + c.Cost() <= budget && (c.level == Compact ==> room + c.entry.standardCost > budget)
  }

  /** Every choice is the fullest level that fits after the ones before it. */
  ghost predicate FullestFit(selected: seq<Choice>, budget: nat, overhead: nat) {
    selected == []
    || var n := |selected| - 1;
       && FullestFit(selected[..n], budget, overhead)
       && Fullest(selected[n], overhead + ContentTokens(selected[..n]), budget)
  }

  /** Nothing is left over, or the next entry fits at neither level. */
  ghost predicate Full(selected: seq<Choice>, ordered: seq<Entry>, budget: nat, overhead: nat)
    requires |selected| <= |ordered|
  {
    |selected| < |ordered| ==>
      var room, next := overhead + ContentTokens(selected), ordered[|selected|];
      room + next.standardCost > budget && room + next.compactCost > budget
  }

  method PackPage(ordered: seq<Entry>, budget: nat, overhead: nat) returns (page: Page)
    ensures Entries(page.selected) + page.remaining == ordered
    ensures page.contentTokens == ContentTokens(page.selected)
    ensures FullestFit(page.selected, budget, overhead)
    ensures |page.selected| <= |ordered| && Full(page.selected, ordered, budget, overhead)
    ensures page.selected != [] ==> overhead + page.contentTokens <= budget
  {
    var selected, contentTokens := [], 0;
    while |selected| < |ordered|
      invariant |selected| <= |ordered| && Entries(selected) == ordered[..|selected|]
      invariant contentTokens == ContentTokens(selected)
      invariant FullestFit(selected, budget, overhead)
      invariant selected != [] ==> overhead + contentTokens <= budget
      decreases |ordered| - |selected|
    {
      var entry := ordered[|selected|];
      var room := overhead + contentTokens;
      var level;
      if room + entry.standardCost <= budget {
        level := Standard;
      } else if room + entry.compactCost <= budget {
        level := Compact;
      } else {
        break;
      }
      SelectStep(selected, Choice(entry, level), budget, overhead);
      contentTokens := contentTokens + Choice(entry, level).Cost();
      selected := selected + [Choice(entry, level)];
    }
    page := Page(selected, ordered[|selected|..], contentTokens);
  }

  lemma SelectStep(selected: seq<Choice>, c: Choice, budget: nat, overhead: nat)
    requires FullestFit(selected, budget, overhead) && Fullest(c, overhead + ContentTokens(selected), budget)
    ensures FullestFit(selected + [c], budget, overhead)
    ensures ContentTokens(selected + [c]) == ContentTokens(selected) + c.Cost()
    ensures Entries(selected + [c]) == Entries(selected) + [c.entry]
  {
    assert (selected + [c])[..|selected|] == selected;
  }

  lemma {:induction false} FullestAt(selected: seq<Choice>, budget: nat, overhead: nat, i: nat)
    requires FullestFit(selected, budget, overhead) && i < |selected|
    ensures Fullest(selected[i], overhead + ContentTokens(selected[..i]), budget)
  {
    var n := |selected| - 1;
    if i < n {
      FullestAt(selected[..n], budget, overhead, i);
      assert selected[..n][..i] == selected[..i];
    }
  }

  lemma EntryAt(selected: seq<Choice>, ordered: seq<Entry>, i: nat)
    requires |selected| <= |ordered| && Entries(selected) == ordered[..|selected|] && i < |selected|
    ensures selected[i].entry == ordered[i]
  {
    assert Entries(selected)[i] == ordered[..|selected|][i];
  }

  /** Two selections that take the fullest fit from the same ranking agree as far as they both go. */
  lemma {:induction false} ChoicesAgree(a: seq<Choice>, b: seq<Choice>, ordered: seq<Entry>, budget: nat,
        overhead: nat, n: nat)
    requires FullestFit(a, budget, overhead) && FullestFit(b, budget, overhead)
    requires |a| <= |ordered| && Entries(a) == ordered[..|a|] && |b| <= |ordered| && Entries(b) == ordered[..|b|]
    requires n <= |a| && n <= |b|
    ensures a[..n] == b[..n]
  {
    if n > 0 {
      ChoicesAgree(a, b, ordered, budget, overhead, n - 1);
      EntryAt(a, ordered, n - 1);
      EntryAt(b, ordered, n - 1);
      FullestAt(a, budget, overhead, n - 1);
      FullestAt(b, budget, overhead, n - 1);
      assert a[n - 1] == b[n - 1];
      assert a[..n] == a[..n - 1] + [a[n - 1]] && b[..n] == b[..n - 1] + [b[n - 1]];
    }
  }

  /** No selection goes on where a full one stops. */
  lemma FullIsLongest(a: seq<Choice>, b: seq<Choice>, ordered: seq<Entry>, budget: nat, overhead: nat)
    requires FullestFit(a, budget, overhead) && FullestFit(b, budget, overhead)
    requires |a| <= |ordered| && Entries(a) == ordered[..|a|] && |b| <= |ordered| && Entries(b) == ordered[..|b|]
    requires Full(a, ordered, budget, overhead)
    ensures |b| <= |a|
  {
    if |b| > |a| {
      var n := |a|;
      ChoicesAgree(a, b, ordered, budget, overhead, n);
      assert a[..n] == a;
      EntryAt(b, ordered, n);
      FullestAt(b, budget, overhead, n);
    }
  }

  /** The contract of `PackPage` admits one page only. */
  lemma PageUnique(a: seq<Choice>, b: seq<Choice>, ordered: seq<Entry>, budget: nat, overhead: nat)
    requires FullestFit(a, budget, overhead) && FullestFit(b, budget, overhead)
    requires |a| <= |ordered| && Entries(a) == ordered[..|a|] && |b| <= |ordered| && Entries(b) == ordered[..|b|]
    requires Full(a, ordered, budget, overhead) && Full(b, ordered, budget, overhead)
    ensures a == b
  {
    FullIsLongest(a, b, ordered, budget, overhead);
    FullIsLongest(b, a, ordered, budget, overhead);
    ChoicesAgree(a, b, ordered, budget, overhead, |a|);
    assert a[..|a|] == a && b[..|b|] == b;
  }

  // ------------------------------------------------------- the priced strings

  datatype Frame = Frame(blockHeader: string, cursorHint: string)

  function Overhead(frame: Frame): nat { Estimate(frame.blockHeader) + Estimate(frame.cursorHint) }

  /** What the audit reports as used. */
  function UsedTokens(page: Page, frame: Frame): nat {
    if page.selected == [] then 0
    else Estimate(frame.blockHeader) + page.contentTokens
         + if page.remaining != [] then Estimate(frame.cursorHint) else 0
  }

  /** The lines of the page. */
  function Lines(selected: seq<Choice>): string {
    if selected == [] then ""
    else Lines(selected[..|selected| - 1]) + Line(selected[|selected| - 1].entry.item, selected[|selected| - 1].level)
  }

  /** The strings the packing has priced, one after the other: header, lines, and the hint when something was left out. */
  function PricedText(page: Page, frame: Frame): string {
    frame.blockHeader + Lines(page.selected) + if page.remaining != [] then frame.cursorHint else ""
  }

  ghost predicate Priced(selected: seq<Choice>) {
    forall i :: 0 <= i < |selected| ==> selected[i].entry == Price(selected[i].entry.item)
  }

  lemma {:induction false} LinesWithinContent(selected: seq<Choice>)
    requires Priced(selected)
    ensures selected != [] ==> Estimate(Lines(selected)) <= ContentTokens(selected)
  {
    if selected != [] {
      var init := selected[..|selected| - 1];
      var last := selected[|selected| - 1];
      LinesWithinContent(init);
      LineAdds(Lines(init), last);
      if init == [] {
        assert Lines(selected) == Line(last.entry.item, last.level);
      }
    }
  }

  lemma LineAdds(lines: string, last: Choice)
    requires last.entry == Price(last.entry.item)
    ensures Estimate(lines + Line(last.entry.item, last.level)) <= Estimate(lines) + last.Cost()
    ensures Estimate(Line(last.entry.item, last.level)) == last.Cost()
  {
    EstimateConcat(lines, Line(last.entry.item, last.level));
  }

  /** Together the priced strings cost no more than the tokens reported. */
  lemma PricedWithinUsed(page: Page, frame: Frame)
    requires page.selected != [] && Priced(page.selected) && page.contentTokens == ContentTokens(page.selected)
    ensures Estimate(PricedText(page, frame)) <= UsedTokens(page, frame)
  {
    LinesWithinContent(page.selected);
    var block := frame.blockHeader + Lines(page.selected);
    EstimateConcat(frame.blockHeader, Lines(page.selected));
    EstimateConcat(block, frame.cursorHint);
    if page.remaining == [] {
      assert PricedText(page, frame) == block;
    }
  }

  /** The page of a ranking: what is reported stays within the budget, and the priced strings within the report. */
  method RankedPage(ranking: seq<Item>, budget: nat, frame: Frame) returns (page: Page, usedTokens: nat)
    ensures Entries(page.selected) + page.remaining == Prices(ranking)
    ensures usedTokens == UsedTokens(page, frame) <= budget
    // nothing for an empty page; the hint counts only when something was left out
    ensures page.selected == [] ==> usedTokens == 0
    ensures page.selected != [] && page.remaining == [] ==> usedTokens == Estimate(frame.blockHeader) + page.contentTokens
    ensures page.selected != [] && page.remaining != [] ==>
      usedTokens == Estimate(frame.blockHeader) + page.contentTokens + Estimate(frame.cursorHint)
    ensures page.selected != [] ==> Estimate(PricedText(page, frame)) <= usedTokens
  {
    page := PackPage(Prices(ranking), budget, Overhead(frame));
    usedTokens := UsedTokens(page, frame);
    forall i | 0 <= i < |page.selected| ensures page.selected[i].entry == Price(page.selected[i].entry.item) {
      assert Entries(page.selected)[i] == Prices(ranking)[i];
    }
    if page.selected != [] { PricedWithinUsed(page, frame); }
  }
}
