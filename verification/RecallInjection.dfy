/** The block of memories put into a prompt: how it is packed, how it is written, and when it keeps its budget. */
module RecallInjection {
  import opened Options
  import opened Lines
  import opened RecallPage

  const MIN_BUDGET := 64
  const MAX_BUDGET := 4096

  /** The fixed texts around the memories; the last line names a cursor when something was left out. */
  datatype Frame = Frame(header: string, footer: string, beforeCursor: string, afterCursor: string) {
    function CursorLine(cursor: string): string { beforeCursor + cursor + afterCursor }
  }

  /** `mrc_` and 32 hexadecimal digits. */
  ghost predicate IsCursor(cursor: string) { |cursor| == 36 && Ascii(cursor) }

  /** Stands for the cursor while there is none. */
  const PLACEHOLDER := "mrc_00000000000000000000000000000000"

  // ----------------------------------------------------------- lines and block

  function NodeLine(item: Item, level: Level): string {
    "- [[" + item.slug + "]] [" + item.kind + "] " + Projection(item, level)
  }

  lemma SampleNodeLine(slug: string)
    ensures NodeLine(Item(slug, "bug", "Short.", "Long.", false), Compact) == "- [[" + slug + "]] [bug] Short."
    ensures NodeLine(Item(slug, "bug", "Short.", "Long.", false), Standard) == "- [[" + slug + "]] [bug] Short.\nLong."
  {
  }

  function NodePrice(item: Item): Entry {
    Entry(item, Estimate(NodeLine(item, Standard)), Estimate(NodeLine(item, Compact)))
  }

  function NodePrices(items: seq<Item>): seq<Entry> {
    seq(|items|, i requires 0 <= i < |items| => NodePrice(items[i]))
  }

  function NodeLines(selected: seq<Choice>): seq<string> {
    seq(|selected|, i requires 0 <= i < |selected| => NodeLine(selected[i].entry.item, selected[i].level))
  }

  /** What is set aside for the fixed lines before any memory is packed. */
  function ReservedText(frame: Frame): string {
    Join([frame.header, frame.footer, frame.CursorLine(PLACEHOLDER)])
  }

  function BlockLines(selected: seq<Choice>, cursor: Option<string>, frame: Frame): seq<string> {
    [frame.header] + NodeLines(selected) + [frame.footer]
    + if cursor.Some? then [frame.CursorLine(cursor.value)] else []
  }

  function Block(selected: seq<Choice>, cursor: Option<string>, frame: Frame): string {
    Join(BlockLines(selected, cursor, frame))
  }

  // --------------------------------------------------------- counting its bytes

  ghost predicate Ascii(text: string) { forall i :: 0 <= i < |text| ==> text[i] as int < 0x80 }

  lemma {:induction false} AsciiBytes(text: string)
    requires Ascii(text)
    ensures Bytes(text) == |text|
  {
    if text != [] { AsciiBytes(text[1..]); }
  }

  function TotalBytes(lines: seq<string>): nat {
    if lines == [] then 0 else TotalBytes(lines[..|lines| - 1]) + Bytes(lines[|lines| - 1])
  }

  lemma {:induction false} TotalConcat(a: seq<string>, b: seq<string>)
    ensures TotalBytes(a + b) == TotalBytes(a) + TotalBytes(b)
  {
    if b == [] {
      assert a + b == a;
    } else {
      assert (a + b)[..|a + b| - 1] == a + b[..|b| - 1];
      TotalConcat(a, b[..|b| - 1]);
    }
  }

  lemma TotalOne(line: string)
    ensures TotalBytes([line]) == Bytes(line)
  {
    assert [line][..0] == [];
  }

  /** A line break between any two lines, and no other byte is added. */
  lemma {:induction false} JoinBytes(lines: seq<string>)
    requires lines != []
    ensures Bytes(Join(lines)) == TotalBytes(lines) + |lines| - 1
  {
    if |lines| == 1 {
      TotalOne(lines[0]);
      assert lines == [lines[0]];
    } else {
      JoinBytes(lines[1..]);
      BytesConcat(lines[0] + "\n", Join(lines[1..]));
      BytesConcat(lines[0], "\n");
      TotalConcat([lines[0]], lines[1..]);
      TotalOne(lines[0]);
      assert lines == [lines[0]] + lines[1..];
    }
  }

  /** The bytes an estimate leaves unused: what rounding up to whole tokens gives away. */
  function Slack(text: string): nat { 3 * Estimate(text) - Bytes(text) }

  function TotalSlack(lines: seq<string>): nat {
    if lines == [] then 0 else TotalSlack(lines[..|lines| - 1]) + Slack(lines[|lines| - 1])
  }

  ghost predicate NodePriced(selected: seq<Choice>) {
    forall i :: 0 <= i < |selected| ==> selected[i].entry == NodePrice(selected[i].entry.item)
  }

  /** The priced lines: three bytes a token, less the slack. */
  lemma {:induction false} ContentBytes(selected: seq<Choice>)
    requires NodePriced(selected)
    ensures TotalBytes(NodeLines(selected)) + TotalSlack(NodeLines(selected)) == 3 * ContentTokens(selected)
  {
    if selected != [] {
      var n := |selected| - 1;
      ContentBytes(selected[..n]);
      assert NodeLines(selected)[..n] == NodeLines(selected[..n]);
      assert selected[n].entry == NodePrice(selected[n].entry.item);
    }
  }

  lemma CursorLineBytes(frame: Frame, cursor: string)
    requires IsCursor(cursor)
    ensures Bytes(frame.CursorLine(cursor)) == Bytes(frame.CursorLine(PLACEHOLDER))
  {
    forall c | c in [cursor, PLACEHOLDER] ensures Bytes(frame.CursorLine(c)) == Bytes(frame.beforeCursor) + 36 + Bytes(frame.afterCursor) {
      AsciiBytes(c);
      BytesConcat(frame.beforeCursor, c);
      BytesConcat(frame.beforeCursor + c, frame.afterCursor);
    }
    assert cursor in [cursor, PLACEHOLDER] && PLACEHOLDER in [cursor, PLACEHOLDER];
  }

  lemma ReservedBytes(frame: Frame)
    ensures Bytes(ReservedText(frame))
      == Bytes(frame.header) + Bytes(frame.footer) + Bytes(frame.CursorLine(PLACEHOLDER)) + 2
  {
    var header, footer, line := frame.header, frame.footer, frame.CursorLine(PLACEHOLDER);
    JoinBytes([header, footer, line]);
    TotalConcat([header, footer], [line]);
    TotalConcat([header], [footer]);
    TotalOne(header);
    TotalOne(footer);
    TotalOne(line);
    assert [header, footer] + [line] == [header, footer, line] && [header] + [footer] == [header, footer];
  }

  lemma BlockBytes(selected: seq<Choice>, cursor: Option<string>, frame: Frame)
    ensures Bytes(Block(selected, cursor, frame)) == Bytes(frame.header) + TotalBytes(NodeLines(selected))
      + Bytes(frame.footer) + |selected| + 1 + if cursor.Some? then Bytes(frame.CursorLine(cursor.value)) + 1 else 0
  {
    var body := [frame.header] + NodeLines(selected);
    TotalConcat([frame.header], NodeLines(selected));
    TotalOne(frame.header);
    TotalConcat(body, [frame.footer]);
    TotalOne(frame.footer);
    JoinBytes(BlockLines(selected, cursor, frame));
    if cursor.Some? {
      TotalConcat(body + [frame.footer], [frame.CursorLine(cursor.value)]);
      TotalOne(frame.CursorLine(cursor.value));
    } else {
      assert BlockLines(selected, cursor, frame) == body + [frame.footer];
    }
  }

  // ----------------------------------------------------------- the budget

  /** The bytes left over once the lines are packed: what the estimates round up, and tokens nobody took. */
  function Room(selected: seq<Choice>, limit: nat, frame: Frame): int {
    TotalSlack(NodeLines(selected)) + Slack(ReservedText(frame))
    + 3 * (limit - Estimate(ReservedText(frame)) - ContentTokens(selected))
  }

  /** The line breaks nobody has priced: one a memory. Without a cursor line, its place is free for them. */
  function Unpriced(selected: seq<Choice>, more: bool, frame: Frame): int {
    |selected| - if more then 0 else Bytes(frame.CursorLine(PLACEHOLDER)) + 1
  }

  /** The block keeps the budget exactly when the unpriced line breaks fit into the bytes left over. */
  lemma BlockWithinLimit(selected: seq<Choice>, cursor: Option<string>, limit: nat, frame: Frame)
    requires NodePriced(selected) && limit >= 1 && (cursor.Some? ==> IsCursor(cursor.value))
    ensures Estimate(Block(selected, cursor, frame)) <= limit
      <==> Unpriced(selected, cursor.Some?, frame) <= Room(selected, limit, frame)
  {
    ContentBytes(selected);
    ReservedBytes(frame);
    BlockBytes(selected, cursor, frame);
    if cursor.Some? { CursorLineBytes(frame, cursor.value); }
  }

  /** What is left for the memories. */
  function PageBudget(limit: nat, frame: Frame): nat {
    var reserved := Estimate(ReservedText(frame));
    if limit > reserved then limit - reserved else 0
  }

  /** A short memory of 22 tokens, to the byte, when its description has 51 ASCII characters. */
  function Sample(slug: char, text: string): Item { Item([slug], "fact", text, "", false) }

  function Samples(text: string): seq<Item> {
    [Sample('a', text), Sample('b', text), Sample('c', text), Sample('d', text)]
  }

  function Whole(slug: char, text: string): Choice { Choice(NodePrice(Sample(slug, text)), Standard) }

  function Packed(text: string): seq<Choice> { [Whole('a', text), Whole('b', text), Whole('c', text)] }

  lemma SampleCost(slug: char, text: string, level: Level)
    requires slug as int < 0x80 && |text| == 51 && Ascii(text)
    ensures Estimate(NodeLine(Sample(slug, text), level)) == 22 && Slack(NodeLine(Sample(slug, text), level)) == 0
  {
    var line := NodeLine(Sample(slug, text), level);
    assert |line| == 66 && Ascii(line);
    AsciiBytes(line);
  }

  lemma PackThree(a: Choice, b: Choice, c: Choice, budget: nat)
    requires a.level == b.level == c.level == Standard && a.Cost() + b.Cost() + c.Cost() <= budget
    ensures FullestFit([a, b, c], budget, 0) && ContentTokens([a, b, c]) == a.Cost() + b.Cost() + c.Cost()
  {
    assert [] + [a] == [a] && [a] + [b] == [a, b] && [a, b] + [c] == [a, b, c];
    SelectStep([], a, budget, 0);
    SelectStep([a], b, budget, 0);
    SelectStep([a, b], c, budget, 0);
  }

  lemma NoSlack(lines: seq<string>)
    requires forall i :: 0 <= i < |lines| ==> Slack(lines[i]) == 0
    ensures TotalSlack(lines) == 0
  {
    if lines != [] { NoSlack(lines[..|lines| - 1]); }
  }

  lemma SampleCosts(text: string)
    requires |text| == 51 && Ascii(text)
    ensures forall i :: 0 <= i < 3 ==> Packed(text)[i].Cost() == 22 && Slack(NodeLines(Packed(text))[i]) == 0
  {
    SampleCost('a', text, Standard);
    SampleCost('b', text, Standard);
    SampleCost('c', text, Standard);
  }

  /** What the packing gives for the samples when 66 tokens are left for them. */
  lemma SamplesPacked(text: string)
    requires |text| == 51 && Ascii(text)
    ensures FullestFit(Packed(text), 66, 0) && ContentTokens(Packed(text)) == 66
    ensures TotalSlack(NodeLines(Packed(text))) == 0
  {
    SampleCosts(text);
    PackThree(Packed(text)[0], Packed(text)[1], Packed(text)[2], 66);
    NoSlack(NodeLines(Packed(text)));
  }

  /**
   * The budget can be missed, whatever the fixed lines are: three memories that fill it to the byte while a fourth is
   * left out leave at most two bytes for three line breaks.
   */
  lemma OverBudget(frame: Frame, cursor: string, text: string)
    requires IsCursor(cursor) && |text| == 51 && Ascii(text)
    ensures var limit, page := Estimate(ReservedText(frame)) + 66, Packed(text);
      && limit >= MIN_BUDGET && PageBudget(limit, frame) == 66
      && NodePriced(page) && Entries(page) == NodePrices(Samples(text))[..3]
      && FullestFit(page, 66, 0) && Full(page, NodePrices(Samples(text)), 66, 0)
      && Estimate(Block(page, Some(cursor), frame)) > limit
  {
    SamplesPacked(text);
    SampleCost('d', text, Standard);
    SampleCost('d', text, Compact);
    BlockWithinLimit(Packed(text), Some(cursor), Estimate(ReservedText(frame)) + 66, frame);
  }

  datatype Error = InvalidRequest

  /** An injected page: its text, what is reported as used, and what was packed and left out. */
  datatype Injection = Injection(block: Option<string>, usedTokens: nat, page: Page)

  /**
   * `searchForInjection`, from the ranking on: sets the fixed lines aside, packs the rest, and writes the block.
   * The packed lines always keep what was set aside free; the block keeps the budget exactly under the byte condition.
   */
  method Inject(ranking: seq<Item>, limit: nat, frame: Frame, cursor: string) returns (r: Result<Option<Injection>, Error>)
    requires IsCursor(cursor)
    ensures r.Err? <==> limit > MAX_BUDGET
    ensures r == Ok(None) <==> limit < MIN_BUDGET
    ensures r.Ok? && r.value.Some? ==>
      var page, more := r.value.value.page, r.value.value.page.remaining != [];
      && Entries(page.selected) + page.remaining == NodePrices(ranking)
      && FullestFit(page.selected, PageBudget(limit, frame), 0)
      && |page.selected| <= |ranking| && Full(page.selected, NodePrices(ranking), PageBudget(limit, frame), 0)
      && (page.selected != [] ==> Estimate(ReservedText(frame)) + page.contentTokens <= limit)
      && (r.value.value.block == None <==> page.selected == [])
      && (page.selected != [] ==>
            && r.value.value.block == Some(Block(page.selected, if more then Some(cursor) else None, frame))
            && r.value.value.usedTokens == Estimate(r.value.value.block.value)
            && (r.value.value.usedTokens <= limit
                <==> Unpriced(page.selected, more, frame) <= Room(page.selected, limit, frame)))
  {
    if limit < MIN_BUDGET { return Ok(None); }
    if limit > MAX_BUDGET { return Err(InvalidRequest); }
    var page := PackPage(NodePrices(ranking), PageBudget(limit, frame), 0);
    if page.selected == [] { return Ok(Some(Injection(None, page.contentTokens, page))); }
    var next := if page.remaining != [] then Some(cursor) else None;
    var block := Block(page.selected, next, frame);
    forall i | 0 <= i < |page.selected| ensures page.selected[i].entry == NodePrice(page.selected[i].entry.item) {
      assert Entries(page.selected)[i] == NodePrices(ranking)[i];
    }
    BlockWithinLimit(page.selected, next, limit, frame);
    return Ok(Some(Injection(Some(block), Estimate(block), page)));
  }
}
