/** The grammar of memory documents, and that the parser accepts it exactly. */
module MemoryGrammar {
  import opened Options
  import opened Lines
  import opened MemoryText
  import opened MemoryFormat
  import opened MemoryDocument
  import opened MemoryAccepts
  import opened MemoryLines

  // ------------------------------------------------------------ a key and its value

  /** `before: after`, cut at the first colon. */
  ghost predicate Cut(text: string, before: string, after: string) {
    text == before + ":" + after && ':' !in before
  }

  ghost predicate Pair(text: string, key: string, scalar: Scalar) {
    exists before, after :: Cut(text, before, after) && key == Trim(before) && ParseScalar(after) == Some(scalar)
  }

  lemma CutAtColon(text: string, before: string, after: string)
    ensures Cut(text, before, after) <==>
      Colon(text) < |text| && before == text[..Colon(text)] && after == text[Colon(text) + 1..]
  {
    if Cut(text, before, after) {
      ColonAt(before, after);
      Sides(before, after);
    } else if Colon(text) < |text| {
      Rejoined(text, Colon(text));
    }
  }

  lemma Sides(before: string, after: string)
    ensures var text := before + ":" + after;
      |before| < |text| && text[..|before|] == before && text[|before| + 1..] == after
  {
  }

  lemma Rejoined(text: string, at: nat)
    requires at < |text| && text[at] == ':'
    ensures text == text[..at] + ":" + text[at + 1..]
  {
  }

  lemma EntryIsPair(text: string, key: string, scalar: Scalar)
    ensures ParseEntry(text) == Some((key, scalar)) <==> Pair(text, key, scalar)
  {
    var at := Colon(text);
    if at < |text| { CutAtColon(text, text[..at], text[at + 1..]); }
    if Pair(text, key, scalar) {
      var before, after :| Cut(text, before, after) && key == Trim(before) && ParseScalar(after) == Some(scalar);
      CutAtColon(text, before, after);
    }
  }

  // ------------------------------------------------------------- maps of pairs

  ghost predicate Distinct(keys: seq<string>) { forall i, j :: 0 <= i < j < |keys| ==> keys[i] != keys[j] }

  /** `more` is `entries` and the pairs of these lines, under keys all different. */
  ghost predicate Adds(lines: seq<string>, keys: seq<string>, entries: map<string, Scalar>, more: map<string, Scalar>) {
    Grows(keys, entries, more) && Pairs(lines, keys, more)
  }

  ghost predicate Grows<V>(keys: seq<string>, entries: map<string, V>, more: map<string, V>) {
    && Distinct(keys) && (forall k :: k in keys ==> k !in entries)
    && (forall k :: k in more <==> k in entries || k in keys) && (forall k :: k in entries ==> more[k] == entries[k])
  }

  ghost predicate Pairs(lines: seq<string>, keys: seq<string>, entries: map<string, Scalar>) {
    |keys| == |lines| && forall i :: 0 <= i < |lines| ==> PairOf(lines[i], keys[i], entries)
  }

  ghost predicate PairOf(line: string, key: string, entries: map<string, Scalar>) {
    key in entries && Pair(Trim(line), key, entries[key])
  }

  lemma FirstApart(keys: seq<string>)
    requires keys != [] && Distinct(keys)
    ensures Distinct(keys[1..]) && keys[0] !in keys[1..]
    ensures forall k :: k in keys <==> k == keys[0] || k in keys[1..]
  {
    assert keys == [keys[0]] + keys[1..];
  }

  lemma GrowsFirst<V>(key: string, v: V, keys: seq<string>, entries: map<string, V>, more: map<string, V>)
    requires key !in entries && Grows(keys, entries[key := v], more)
    ensures Grows([key] + keys, entries, more) && key in more && more[key] == v
  {
    var first := entries[key := v];
    assert key in first && key !in keys;
    forall k | k in entries ensures more[k] == entries[k] { assert k in first && first[k] == entries[k]; }
  }

  lemma GrowsRest<V>(keys: seq<string>, entries: map<string, V>, more: map<string, V>)
    requires keys != [] && Grows(keys, entries, more)
    ensures keys[0] !in entries && keys[0] in more && Grows(keys[1..], entries[keys[0] := more[keys[0]]], more)
  {
    FirstApart(keys);
    assert keys[0] in keys;
    forall k | k in keys[1..] ensures k !in entries && k != keys[0] { assert k in keys; }
  }

  lemma {:induction false} MapAdds(lines: seq<string>, entries: map<string, Scalar>, more: map<string, Scalar>)
      returns (keys: seq<string>)
    requires ParseMap(lines, entries) == Some(more)
    ensures Adds(lines, keys, entries, more)
  {
    if lines == [] {
      keys := [];
    } else {
      var (key, scalar) := ParseEntry(Trim(lines[0])).value;
      EntryIsPair(Trim(lines[0]), key, scalar);
      keys := MapAdds(lines[1..], entries[key := scalar], more);
      GrowsFirst(key, scalar, keys, entries, more);
      var all := [key] + keys;
      forall i | 0 <= i < |lines| ensures PairOf(lines[i], all[i], more) {
        if i > 0 { assert PairOf(lines[1..][i - 1], keys[i - 1], more); }
      }
      keys := all;
    }
  }

  lemma {:induction false} AddsMap(lines: seq<string>, keys: seq<string>, entries: map<string, Scalar>,
        more: map<string, Scalar>)
    requires Adds(lines, keys, entries, more)
    ensures ParseMap(lines, entries) == Some(more)
    decreases |lines|
  {
    if lines == [] {
      assert more == entries;
    } else {
      assert PairOf(lines[0], keys[0], more);
      GrowsRest(keys, entries, more);
      forall i | 0 <= i < |lines| - 1 ensures PairOf(lines[1..][i], keys[1..][i], more) {
        assert PairOf(lines[i + 1], keys[i + 1], more);
      }
      EntryIsPair(Trim(lines[0]), keys[0], more[keys[0]]);
      AddsMap(lines[1..], keys[1..], entries[keys[0] := more[keys[0]]], more);
    }
  }

  /** Lines make a map exactly when each is a pair and no key comes twice. */
  lemma MapMeans(lines: seq<string>, entries: map<string, Scalar>, more: map<string, Scalar>)
    ensures ParseMap(lines, entries) == Some(more) <==> exists keys :: Adds(lines, keys, entries, more)
  {
    if ParseMap(lines, entries) == Some(more) { var keys := MapAdds(lines, entries, more); }
    if keys :| Adds(lines, keys, entries, more) { AddsMap(lines, keys, entries, more); }
  }

  // -------------------------------------------------------------------- lists

  function Flatten(groups: seq<seq<string>>): seq<string> {
    if groups == [] then [] else groups[0] + Flatten(groups[1..])
  }

  lemma DashedMeans(line: string)
    ensures Dashed(line) <==> exists rest :: line == "- " + rest
  {
    if Dashed(line) { assert line == "- " + line[2..]; }
  }

  /** A dashed line and the lines after it are one item. */
  ghost predicate Item(group: seq<string>, item: map<string, Scalar>) {
    && group != [] && Dashed(Trim(group[0])) && Undashed(group[1..])
    && exists key, scalar, keys :: Pair(Trim(group[0])[2..], key, scalar) && Adds(group[1..], keys, map[key := scalar], item)
  }

  ghost predicate Undashed(lines: seq<string>) { forall i :: 0 <= i < |lines| ==> !Dashed(Trim(lines[i])) }

  /** The items of these groups of lines, one each. */
  ghost predicate Items(groups: seq<seq<string>>, items: seq<map<string, Scalar>>)
    decreases |groups|
  {
    if groups == [] then items == []
    else items != [] && Item(groups[0], items[0]) && Items(groups[1..], items[1..])
  }

  /** Undashed lines add to the open item as lines of a map would. */
  lemma {:induction false} Continue(lines: seq<string>, rest: seq<string>, items: seq<map<string, Scalar>>,
        current: map<string, Scalar>)
    requires Undashed(lines)
    ensures ParseList(lines + rest, items + [current]) ==
            match ParseMap(lines, current) case None => None case Some(item) => ParseList(rest, items + [item])
    decreases |lines|
  {
    if lines == [] {
      assert lines + rest == rest;
    } else {
      var all, had := lines + rest, items + [current];
      assert all[0] == lines[0] && all[1..] == lines[1..] + rest;
      assert !Dashed(Trim(lines[0])) && had[|had| - 1] == current && had[..|had| - 1] == items;
      var entry := ParseEntry(Trim(lines[0]));
      if entry.Some? && entry.value.0 !in current {
        Continue(lines[1..], rest, items, current[entry.value.0 := entry.value.1]);
      }
    }
  }

  lemma ItemStep(group: seq<string>, rest: seq<string>, items: seq<map<string, Scalar>>)
    requires group != [] && Dashed(Trim(group[0])) && Undashed(group[1..])
    ensures ParseList(group + rest, items) ==
      match ParseEntry(Trim(group[0])[2..])
      case None => None
      case Some((key, scalar)) =>
        match ParseMap(group[1..], map[key := scalar]) case None => None case Some(item) => ParseList(rest, items + [item])
  {
    assert (group + rest)[0] == group[0] && (group + rest)[1..] == group[1..] + rest;
    var entry := ParseEntry(Trim(group[0])[2..]);
    if entry.Some? { Continue(group[1..], rest, items, map[entry.value.0 := entry.value.1]); }
  }

  lemma ItemMeans(group: seq<string>, rest: seq<string>, items: seq<map<string, Scalar>>, item: map<string, Scalar>)
    requires Item(group, item)
    ensures ParseList(group + rest, items) == ParseList(rest, items + [item])
  {
    var key, scalar, keys :| Pair(Trim(group[0])[2..], key, scalar) && Adds(group[1..], keys, map[key := scalar], item);
    EntryIsPair(Trim(group[0])[2..], key, scalar);
    AddsMap(group[1..], keys, map[key := scalar], item);
    ItemStep(group, rest, items);
  }

  lemma ItemFound(group: seq<string>, rest: seq<string>, had: seq<map<string, Scalar>>) returns (item: map<string, Scalar>)
    requires group != [] && Dashed(Trim(group[0])) && Undashed(group[1..]) && ParseList(group + rest, had).Some?
    ensures Item(group, item) && ParseList(group + rest, had) == ParseList(rest, had + [item])
  {
    ItemStep(group, rest, had);
    var (key, scalar) := ParseEntry(Trim(group[0])[2..]).value;
    EntryIsPair(Trim(group[0])[2..], key, scalar);
    item := ParseMap(group[1..], map[key := scalar]).value;
    var keys := MapAdds(group[1..], map[key := scalar], item);
  }

  lemma Shift<T>(a: seq<T>, b: seq<T>)
    requires b != []
    ensures a + [b[0]] + b[1..] == a + b
  {
    assert b == [b[0]] + b[1..];
  }

  lemma {:induction false} ItemsList(lines: seq<string>, groups: seq<seq<string>>, items: seq<map<string, Scalar>>,
        had: seq<map<string, Scalar>>)
    requires lines == Flatten(groups) && Items(groups, items)
    ensures ParseList(lines, had) == Some(had + items)
    decreases |groups|
  {
    if groups == [] {
      assert had + items == had;
      assert lines == [];
    } else {
      ItemMeans(groups[0], Flatten(groups[1..]), had, items[0]);
      ItemsList(Flatten(groups[1..]), groups[1..], items[1..], had + [items[0]]);
      Shift(had, items);
    }
  }

  /** The first item's lines: up to the next dashed one. */
  lemma FirstItem(lines: seq<string>) returns (n: nat)
    requires lines != []
    ensures 1 <= n <= |lines| && Undashed(lines[1..n]) && (n < |lines| ==> Dashed(Trim(lines[n])))
  {
    n := 1;
    while n < |lines| && !Dashed(Trim(lines[n]))
      invariant 1 <= n <= |lines| && forall i :: 1 <= i < n ==> !Dashed(Trim(lines[i]))
    {
      n := n + 1;
    }
  }

  lemma {:induction false} ListGroups(lines: seq<string>, had: seq<map<string, Scalar>>, all: seq<map<string, Scalar>>)
      returns (groups: seq<seq<string>>, items: seq<map<string, Scalar>>)
    requires lines == [] || Dashed(Trim(lines[0]))
    requires ParseList(lines, had) == Some(all)
    ensures lines == Flatten(groups) && Items(groups, items) && all == had + items
    decreases |lines|
  {
    groups, items := [], [];
    if lines != [] {
      var n := FirstItem(lines);
      var group, rest := lines[..n], lines[n..];
      assert lines == group + rest && group[1..] == lines[1..n];
      var item := ItemFound(group, rest, had);
      var others, more := ListGroups(rest, had + [item], all);
      groups, items := [group] + others, [item] + more;
      Shift(had, items);
    }
  }

  // ------------------------------------------------------------ nested values

  /** What the lines nested under a key say. */
  ghost predicate Nested(lines: seq<string>, value: Value) {
    if lines == [] then value == Object(map[])
    else if Dashed(TrimStart(lines[0])) then value.List? && exists groups :: lines == Flatten(groups) && Items(groups, value.items)
    else value.Object? && exists keys :: Adds(lines, keys, map[], value.entries)
  }

  lemma NestedMeans(lines: seq<string>, value: Value)
    ensures ParseChildren(lines) == Some(value) <==> Nested(lines, value)
  {
    if lines != [] && value.Object? { MapMeans(lines, map[], value.entries); }
    if lines != [] && value.List? {
      if groups :| lines == Flatten(groups) && Items(groups, value.items) {
        ItemsList(lines, groups, value.items, []);
        assert [] + value.items == value.items;
      }
      if Dashed(Trim(lines[0])) && ParseList(lines, []) == Some(value.items) {
        var groups, items := ListGroups(lines, [], value.items);
        assert [] + items == items;
      }
    }
  }

  // ----------------------------------------------------------------- sections

  /** A key line `before: rest`, and the lines nested under it. */
  datatype Section = Section(before: string, rest: string, children: seq<string>)

  function HeadOf(section: Section): string { section.before + ":" + section.rest }

  function KeyOf(section: Section): string { Trim(section.before) }

  function Keys(sections: seq<Section>): seq<string> {
    if sections == [] then [] else [KeyOf(sections[0])] + Keys(sections[1..])
  }

  function Written(sections: seq<Section>): seq<string> {
    if sections == [] then [] else [HeadOf(sections[0])] + sections[0].children + Written(sections[1..])
  }

  function NonBlank(lines: seq<string>): seq<string> {
    if lines == [] then [] else (if Blank(lines[0]) then [] else [lines[0]]) + NonBlank(lines[1..])
  }

  /** A key at the margin; what is nested is indented, and there is nothing nested under a value on the key line. */
  ghost predicate Cutting(section: Section) {
    && ':' !in section.before && KeyOf(section) != "" && !Indented(HeadOf(section))
    && (forall i :: 0 <= i < |section.children| ==> Indented(section.children[i]) && !Blank(section.children[i]))
    && (Trim(section.rest) != "" ==> section.children == [])
  }

  ghost predicate Gives(section: Section, value: Value) {
    if Trim(section.rest) != "" then exists scalar :: ParseScalar(Trim(section.rest)) == Some(scalar) && value == ToValue(scalar)
    else Nested(section.children, value)
  }

  ghost predicate Fields(sections: seq<Section>, fields: map<string, Value>)
    decreases |sections|
  {
    sections == []
    || (Cutting(sections[0]) && KeyOf(sections[0]) in fields && Gives(sections[0], fields[KeyOf(sections[0])])
        && Fields(sections[1..], fields))
  }

  /** Front matter: sections between blank lines, their keys all different. */
  ghost predicate Front(lines: seq<string>, sections: seq<Section>, fields: map<string, Value>) {
    && NonBlank(lines) == Written(sections) && Fields(sections, fields)
    && Distinct(Keys(sections)) && forall k :: k in fields <==> k in Keys(sections)
  }

  predicate AtMargin(lines: seq<string>) { lines == [] || (!Blank(lines[0]) && !Indented(lines[0])) }

  lemma {:induction false} BlockIs(children: seq<string>, rest: seq<string>)
    requires forall i :: 0 <= i < |children| ==> Indented(children[i]) && !Blank(children[i])
    requires AtMargin(rest)
    ensures Block(children + rest) == (children, rest)
    decreases |children|
  {
    if children == [] {
      assert children + rest == rest;
    } else {
      var all := children + rest;
      assert all[0] == children[0] && all[1..] == children[1..] + rest;
      BlockIs(children[1..], rest);
      assert [children[0]] + children[1..] == children;
    }
  }

  lemma {:induction false} BlockParts(lines: seq<string>)
    requires NonBlank(lines) == lines
    ensures var (children, rest) := Block(lines);
      && lines == children + rest && AtMargin(rest) && NonBlank(rest) == rest
      && forall i :: 0 <= i < |children| ==> Indented(children[i]) && !Blank(children[i])
  {
    NoneBlank(lines);
    if lines != [] && Indented(lines[0]) {
      NoneBlankBack(lines[1..]);
      BlockParts(lines[1..]);
    }
  }

  lemma {:induction false} NoneBlank(lines: seq<string>)
    ensures |NonBlank(lines)| <= |lines|
    ensures NonBlank(lines) == lines ==> forall i :: 0 <= i < |lines| ==> !Blank(lines[i])
  {
    if lines != [] {
      NoneBlank(lines[1..]);
      if NonBlank(lines) == lines {
        assert !Blank(lines[0]);
        assert NonBlank(lines)[1..] == NonBlank(lines[1..]);
      }
    }
  }

  lemma {:induction false} NoneBlankBack(lines: seq<string>)
    requires forall i :: 0 <= i < |lines| ==> !Blank(lines[i])
    ensures NonBlank(lines) == lines
  {
    if lines != [] {
      NoneBlankBack(lines[1..]);
      assert lines == [lines[0]] + lines[1..];
    }
  }

  /** Blank lines make no difference. */
  lemma {:induction false} BlockBlank(lines: seq<string>)
    ensures Block(NonBlank(lines)) == (Block(lines).0, NonBlank(Block(lines).1))
  {
    if lines != [] {
      BlockBlank(lines[1..]);
      var kept := NonBlank(lines);
      if Blank(lines[0]) {
        assert kept == NonBlank(lines[1..]);
      } else {
        assert kept[0] == lines[0] && kept[1..] == NonBlank(lines[1..]);
      }
    }
  }

  lemma HeadStep(head: string, below: seq<string>, fields: map<string, Value>)
    requires !Blank(head)
    ensures ParseLines([head] + below, fields) ==
      match ParseKey(head, fields)
      case None => None
      case Some((key, text)) =>
        if text != "" then
          match ParseScalar(text) case None => None case Some(scalar) => ParseLines(below, fields[key := ToValue(scalar)])
        else
          match ParseChildren(Block(below).0) case None => None case Some(value) => ParseLines(Block(below).1, fields[key := value])
  {
    assert ([head] + below)[0] == head && ([head] + below)[1..] == below;
  }

  lemma {:induction false} BlanksDropped(lines: seq<string>, fields: map<string, Value>)
    ensures ParseLines(NonBlank(lines), fields) == ParseLines(lines, fields)
    decreases |lines|
  {
    if lines == [] {
    } else if Blank(lines[0]) {
      assert NonBlank(lines) == NonBlank(lines[1..]);
      BlanksDropped(lines[1..], fields);
    } else {
      var head, below := lines[0], lines[1..];
      assert lines == [head] + below;
      HeadStep(head, below, fields);
      HeadStep(head, NonBlank(below), fields);
      BlockBlank(below);
      var found := ParseKey(head, fields);
      if found.Some? {
        var (key, text) := found.value;
        if text != "" && ParseScalar(text).Some? {
          BlanksDropped(below, fields[key := ToValue(ParseScalar(text).value)]);
        }
        var (children, rest) := Block(below);
        if text == "" && ParseChildren(children).Some? {
          BlanksDropped(rest, fields[key := ParseChildren(children).value]);
        }
      }
    }
  }

  lemma KeyRead(section: Section, fields: map<string, Value>)
    requires Cutting(section)
    ensures !Blank(HeadOf(section))
    ensures ParseKey(HeadOf(section), fields) ==
            if KeyOf(section) in fields then None else Some((KeyOf(section), Trim(section.rest)))
  {
    CutAtColon(HeadOf(section), section.before, section.rest);
    TrimsToNothing(HeadOf(section));
    assert HeadOf(section)[|section.before|] == ':';
  }

  /** One section, and then the lines after it. */
  lemma SectionStep(section: Section, rest: seq<string>, fields: map<string, Value>, value: Value)
    requires Cutting(section) && AtMargin(rest) && Gives(section, value)
    ensures ParseLines([HeadOf(section)] + section.children + rest, fields) ==
      if KeyOf(section) in fields then None else ParseLines(rest, fields[KeyOf(section) := value])
  {
    var below := section.children + rest;
    assert [HeadOf(section)] + section.children + rest == [HeadOf(section)] + below;
    KeyRead(section, fields);
    BlockIs(section.children, rest);
    NestedMeans(section.children, value);
    if Trim(section.rest) != "" { assert below == rest; }
    HeadStep(HeadOf(section), below, fields);
  }

  lemma {:induction false} FrontTold(sections: seq<Section>, had: map<string, Value>, fields: map<string, Value>)
    requires Fields(sections, fields) && Grows(Keys(sections), had, fields)
    ensures ParseLines(Written(sections), had) == Some(fields)
    ensures AtMargin(Written(sections))
    decreases |sections|
  {
    if sections == [] {
      assert fields == had;
    } else {
      var key, rest := KeyOf(sections[0]), sections[1..];
      GrowsRest(Keys(sections), had, fields);
      FrontTold(rest, had[key := fields[key]], fields);
      KeyRead(sections[0], had);
      SectionStep(sections[0], Written(rest), had, fields[key]);
    }
  }

  lemma Assoc<T>(a: seq<T>, b: seq<T>, c: seq<T>)
    ensures a + b + c == a + (b + c)
  {
  }

  lemma SectionFound(lines: seq<string>, had: map<string, Value>) returns (section: Section, value: Value, rest: seq<string>)
    requires lines != [] && NonBlank(lines) == lines && ParseLines(lines, had).Some?
    ensures Cutting(section) && Gives(section, value) && KeyOf(section) !in had
    ensures lines == [HeadOf(section)] + section.children + rest && NonBlank(rest) == rest
    ensures ParseLines(lines, had) == ParseLines(rest, had[KeyOf(section) := value])
  {
    NoneBlank(lines);
    var head, below := lines[0], lines[1..];
    assert lines == [head] + below;
    NoneBlankBack(below);
    HeadStep(head, below, had);
    CutAtColon(head, head[..Colon(head)], head[Colon(head) + 1..]);
    var before, after := head[..Colon(head)], head[Colon(head) + 1..];
    if Trim(after) != "" {
      section, value, rest := Section(before, after, []), ToValue(ParseScalar(Trim(after)).value), below;
      Assoc([head], [], rest);
      assert [] + rest == below;
    } else {
      BlockParts(below);
      rest := Block(below).1;
      section, value := Section(before, after, Block(below).0), ParseChildren(Block(below).0).value;
      NestedMeans(section.children, value);
      Assoc([head], section.children, rest);
    }
  }

  lemma {:induction false} FrontRead(lines: seq<string>, had: map<string, Value>, fields: map<string, Value>)
      returns (sections: seq<Section>)
    requires NonBlank(lines) == lines && ParseLines(lines, had) == Some(fields)
    ensures lines == Written(sections) && Fields(sections, fields) && Grows(Keys(sections), had, fields)
    decreases |lines|
  {
    sections := [];
    if lines != [] {
      var section, value, rest := SectionFound(lines, had);
      sections := FrontRead(rest, had[KeyOf(section) := value], fields);
      GrowsFirst(KeyOf(section), value, Keys(sections), had, fields);
      sections := [section] + sections;
    }
  }

  /** Lines are read as these fields exactly when they are front matter that gives them. */
  lemma FrontMeans(lines: seq<string>, fields: map<string, Value>)
    ensures ParseLines(lines, map[]) == Some(fields) <==> exists sections :: Front(lines, sections, fields)
  {
    BlanksDropped(lines, map[]);
    BlanksOnce(lines);
    if ParseLines(lines, map[]) == Some(fields) {
      var sections := FrontRead(NonBlank(lines), map[], fields);
      assert Front(lines, sections, fields);
    }
    if sections :| Front(lines, sections, fields) { FrontTold(sections, map[], fields); }
  }

  lemma {:induction false} BlanksOnce(lines: seq<string>)
    ensures NonBlank(NonBlank(lines)) == NonBlank(lines)
  {
    if lines != [] {
      BlanksOnce(lines[1..]);
      var kept := NonBlank(lines);
      if Blank(lines[0]) {
        assert kept == NonBlank(lines[1..]);
      } else {
        assert kept[0] == lines[0] && kept[1..] == NonBlank(lines[1..]);
      }
    }
  }

  // ----------------------------------------------------------------- documents

  /** The front matter between the first two lines `---`, and the lines after it. */
  ghost predicate Between(raw: string, front: seq<string>, tail: seq<string>) {
    SplitLines(Normalize(raw)) == ["---"] + front + ["---"] + tail && "---" !in front
  }

  /** A line break a text begins with, and another one it ends with. */
  function Opening(text: string): string { if text != "" && text[0] == '\n' then "\n" else "" }

  function Closing(text: string): string {
    if text != Opening(text) && text[|text| - 1] == '\n' then "\n" else ""
  }

  /** The body: those lines, without a line break at either end. */
  ghost predicate BodyOf(tail: seq<string>, body: string) {
    Join(tail) == Opening(Join(tail)) + body + Closing(Join(tail))
  }

  lemma BodyIs(tail: seq<string>, body: string)
    ensures BodyOf(tail, body) <==> body == StripBreaks(Join(tail))
  {
    var text := Join(tail);
    StripIs(text);
    Middle(Opening(text), body, StripBreaks(text), Closing(text));
  }

  lemma StripIs(text: string)
    ensures text == Opening(text) + StripBreaks(text) + Closing(text)
  {
  }

  lemma Middle(first: string, a: string, b: string, last: string)
    ensures first + a + last == first + b + last <==> a == b
  {
    if first + a + last == first + b + last {
      var x, y := first + a + last, first + b + last;
      assert |a| == |b|;
      forall i | 0 <= i < |a| ensures a[i] == b[i] { assert x[|first| + i] == a[i] && y[|first| + i] == b[i]; }
    }
  }

  lemma {:induction false} EndIs(front: seq<string>, tail: seq<string>)
    requires "---" !in front
    ensures FindEnd(front + ["---"] + tail) == |front|
    decreases |front|
  {
    var lines := front + ["---"] + tail;
    if front != [] {
      assert lines[0] == front[0] && front[0] in front && lines[1..] == front[1..] + ["---"] + tail;
      EndIs(front[1..], tail);
    }
  }

  lemma {:induction false} EndFirst(lines: seq<string>)
    ensures "---" !in lines[..FindEnd(lines)]
  {
    if lines != [] && lines[0] != "---" {
      EndFirst(lines[1..]);
      assert lines[..FindEnd(lines)] == [lines[0]] + lines[1..][..FindEnd(lines[1..])];
    }
  }

  lemma SplitBetween(raw: string) returns (tail: seq<string>)
    requires Split(raw).Some?
    ensures Between(raw, Split(raw).value.0, tail) && BodyOf(tail, Split(raw).value.1)
  {
    var lines := SplitLines(Normalize(raw));
    var end := FindEnd(lines[1..]);
    EndFirst(lines[1..]);
    tail := lines[1..][end + 1..];
    Around(lines, end);
    BodyIs(tail, Split(raw).value.1);
  }

  lemma Around(lines: seq<string>, end: nat)
    requires |lines| > 1 && lines[0] == "---" && end < |lines| - 1 && lines[end + 1] == "---"
    ensures lines == ["---"] + lines[1..][..end] + ["---"] + lines[1..][end + 1..]
  {
  }

  lemma BetweenSplit(raw: string, front: seq<string>, tail: seq<string>)
    requires Between(raw, front, tail)
    ensures Split(raw) == Some((front, StripBreaks(Join(tail))))
  {
    var lines := SplitLines(Normalize(raw));
    assert lines == ["---"] + (front + ["---"] + tail);
    assert lines[1..] == front + ["---"] + tail;
    EndIs(front, tail);
    assert lines[1..][..|front|] == front && lines[1..][|front| + 1..] == tail;
  }

  lemma SplitMeans(raw: string, front: seq<string>, body: string)
    ensures Split(raw) == Some((front, body)) <==> exists tail :: Between(raw, front, tail) && BodyOf(tail, body)
  {
    if Split(raw) == Some((front, body)) { var tail := SplitBetween(raw); }
    if tail :| Between(raw, front, tail) && BodyOf(tail, body) {
      BetweenSplit(raw, front, tail);
      BodyIs(tail, body);
    }
  }

  /** What a document in the grammar says: its front matter tells the memory, and the rest is its content. */
  ghost predicate DocumentOf(raw: string, front: seq<string>, tail: seq<string>, sections: seq<Section>,
                             fields: map<string, Value>, m: Doc, legacy: bool)
  {
    Between(raw, front, tail) && Front(front, sections, fields) && Tells(fields, m, legacy) && BodyOf(tail, m.content)
  }

  /** A document is accepted as a memory exactly when it says that memory, and the memory is one to accept. */
  lemma DocumentMeans(raw: string, agentId: string, clock: Clock, m: Doc, legacy: bool)
    ensures Parse(raw, agentId, clock) == Some(Parsed(m, legacy)) <==>
      m.agentId == agentId && Meets(m, clock)
      && exists front, tail, sections, fields :: DocumentOf(raw, front, tail, sections, fields, m, legacy)
  {
    if Parse(raw, agentId, clock) == Some(Parsed(m, legacy)) {
      var (front, body) := Split(raw).value;
      var fields := ParseLines(front, map[]).value;
      SplitMeans(raw, front, body);
      FrontMeans(front, fields);
      Accepted(fields, body, agentId, clock, m, legacy);
      var tail :| Between(raw, front, tail) && BodyOf(tail, body);
      var sections :| Front(front, sections, fields);
      assert DocumentOf(raw, front, tail, sections, fields, m, legacy);
    }
    if front, tail, sections, fields :| DocumentOf(raw, front, tail, sections, fields, m, legacy) {
      SplitMeans(raw, front, m.content);
      FrontMeans(front, fields);
      Accepted(fields, m.content, agentId, clock, m, legacy);
    }
  }
}
