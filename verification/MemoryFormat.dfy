/** The memory document: front matter in a strict subset of YAML, and a body. */
module MemoryFormat {
  import opened Options
  import opened Lines
  import opened MemoryText
  import opened MemoryJson

  // ---------------------------------------------------------------- scalars

  /** A parsed scalar, or a JSON value written in its place. */
  datatype Scalar = Text(text: string) | Num(value: int) | Null | EmptyObject | EmptyArray | Flow(json: Json)

  datatype Value = Plain(scalar: Scalar) | Object(entries: map<string, Scalar>) | List(items: seq<map<string, Scalar>>)

  predicate Digits(s: string) { s != "" && forall i :: 0 <= i < |s| ==> '0' <= s[i] <= '9' }

  /** `/^-?\d+$/` */
  predicate Integer(s: string) { Digits(s) || (s != "" && s[0] == '-' && Digits(s[1..])) }

  function Number(s: string): int
    requires forall i :: 0 <= i < |s| ==> '0' <= s[i] <= '9'
  {
    if s == "" then 0 else 10 * Number(s[..|s| - 1]) + (s[|s| - 1] as int - '0' as int)
  }

  /** `replace(/''/g, "'")` */
  function Undouble(s: string): string {
    if s == "" then ""
    else if |s| >= 2 && s[0] == '\'' && s[1] == '\'' then "'" + Undouble(s[2..])
    else [s[0]] + Undouble(s[1..])
  }

  predicate Enclosed(s: string, mark: char) { s != "" && s[0] == mark && s[|s| - 1] == mark }

  function ParseScalar(raw: string): Option<Scalar> {
    var value := Trim(raw);
    if value == "{}" then Some(EmptyObject)
    else if value == "[]" then Some(EmptyArray)
    else if value == "null" then Some(Null)
    else if Integer(value) then Some(Num(if value[0] == '-' then -Number(value[1..]) else Number(value)))
    else if Enclosed(value, '"') then
      match ParseQuoted(value)
      case None => None
      case Some(text) => Some(Text(text))
    else if Enclosed(value, '\'') then
      Some(Text(if |value| == 1 then "" else Undouble(value[1..|value| - 1])))
    else if value != "" && (value[0] == '{' || value[0] == '[') then
      match ParseJson(value)
      case None => None
      case Some(json) => Some(Flow(json))
    else Some(Text(value))
  }

  /** A value the printer may write bare: the parser takes it for this very text. */
  predicate Atom(v: string) {
    && Trimmed(v) && SingleLine(v) && v != "{}" && v != "[]" && v != "null" && !Integer(v)
    && !Enclosed(v, '"') && !Enclosed(v, '\'') && (v != "" ==> v[0] != '{' && v[0] != '[')
  }

  lemma {:induction false} UndoubleShrinks(s: string)
    ensures |Undouble(s)| <= |s|
  {
    if s != "" {
      UndoubleShrinks(s[1..]);
      if |s| >= 2 { UndoubleShrinks(s[2..]); }
    }
  }

  /** A scalar that parses to a text came from a text at least as long; equal only when it was written bare. */
  lemma ScalarShrinks(v: string)
    requires ParseScalar(v).Some? && ParseScalar(v).value.Text?
    ensures |ParseScalar(v).value.text| <= |v|
    ensures Enclosed(Trim(v), '"') || Enclosed(Trim(v), '\'') ==> |ParseScalar(v).value.text| < |v|
  {
    TrimTrimmed(v);
    var value := Trim(v);
    if Enclosed(value, '"') {
      UnescapeShrinks(value[1..|value| - 1]);
    } else if Enclosed(value, '\'') && |value| > 1 {
      UndoubleShrinks(value[1..|value| - 1]);
    }
  }

  /** Bare printing is faithful for atoms only. */
  lemma AtomExact(v: string)
    requires SingleLine(v)
    ensures ParseScalar(v) == Some(Text(v)) <==> Atom(v)
  {
    TrimTrimmed(v);
    if ParseScalar(v) == Some(Text(v)) { ScalarShrinks(v); }
  }

  // ----------------------------------------------------------------- parser

  /** Where the first colon is, or the length of the line when it has none. */
  function Colon(line: string): (at: nat)
    ensures at <= |line| && (at < |line| ==> line[at] == ':') && (at < |line| <==> ':' in line)
    ensures ':' !in line[..at]
  {
    if line == "" || line[0] == ':' then 0 else 1 + Colon(line[1..])
  }

  predicate Blank(line: string) { Trim(line) == "" }

  predicate Indented(line: string) { line != "" && IsSpace(line[0]) }

  predicate Dashed(s: string) { |s| >= 2 && s[0] == '-' && s[1] == ' ' }

  function FromJson(json: Json): Scalar {
    match json
    case JsonString(text) => Text(text)
    case JsonNull => Null
    case _ => Flow(json)
  }

  function FromEntries(entries: map<string, Json>): map<string, Scalar> {
    map key | key in entries :: FromJson(entries[key])
  }

  predicate AllObjects(items: seq<Json>) { forall i :: 0 <= i < |items| ==> items[i].JsonObject? }

  function FromObjects(items: seq<Json>): seq<map<string, Scalar>>
    requires AllObjects(items)
  {
    seq(|items|, i requires 0 <= i < |items| => FromEntries(items[i].entries))
  }

  /** Objects, and lists of objects, are the same however they are written. */
  function ToValue(scalar: Scalar): Value {
    match scalar
    case EmptyObject => Object(map[])
    case EmptyArray => List([])
    case Flow(JsonObject(entries)) => Object(FromEntries(entries))
    case Flow(JsonArray(items)) => if AllObjects(items) then List(FromObjects(items)) else Plain(scalar)
    case _ => Plain(scalar)
  }

  /** `key: value` of a nested line. */
  function ParseEntry(text: string): Option<(string, Scalar)> {
    var at := Colon(text);
    if at == |text| then None
    else match ParseScalar(text[at + 1..])
      case None => None
      case Some(scalar) => Some((Trim(text[..at]), scalar))
  }

  function ParseList(children: seq<string>, items: seq<map<string, Scalar>>): Option<seq<map<string, Scalar>>> {
    if children == [] then Some(items)
    else match ParseItem(Trim(children[0]), items)
      case None => None
      case Some(more) => ParseList(children[1..], more)
  }

  /** One line of a list: a dash opens an item, any other line adds a key to the open one. */
  function ParseItem(line: string, items: seq<map<string, Scalar>>): Option<seq<map<string, Scalar>>> {
    if Dashed(line) then
      match ParseEntry(line[2..])
      case None => None
      case Some((key, scalar)) => Some(items + [map[key := scalar]])
    else if items == [] then None
    else match ParseEntry(line)
      case None => None
      case Some((key, scalar)) =>
        var last := |items| - 1;
        if key in items[last] then None else Some(items[..last] + [items[last][key := scalar]])
  }

  function ParseMap(children: seq<string>, entries: map<string, Scalar>): Option<map<string, Scalar>> {
    if children == [] then Some(entries)
    else match ParseEntry(Trim(children[0]))
      case None => None
      case Some((key, scalar)) =>
        if key in entries then None else ParseMap(children[1..], entries[key := scalar])
  }

  function ParseChildren(children: seq<string>): Option<Value> {
    if children == [] then Some(Object(map[]))
    else if Dashed(TrimStart(children[0])) then
      match ParseList(children, [])
      case None => None
      case Some(items) => Some(List(items))
    else
      match ParseMap(children, map[])
      case None => None
      case Some(entries) => Some(Object(entries))
  }

  /** The non-blank lines nested under the key before these lines, and the lines after them. */
  function Block(lines: seq<string>): (r: (seq<string>, seq<string>))
    ensures |r.1| <= |lines|
  {
    if lines == [] || (!Blank(lines[0]) && !Indented(lines[0])) then ([], lines)
    else
      var (children, rest) := Block(lines[1..]);
      (if Blank(lines[0]) then children else [lines[0]] + children, rest)
  }

  /** The key and what follows it, or `None` for a line that is no fresh top-level key. */
  function ParseKey(line: string, fields: map<string, Value>): Option<(string, string)> {
    var at := Colon(line);
    if Indented(line) || at == |line| then None
    else
      var key := Trim(line[..at]);
      if key == "" || key in fields then None else Some((key, Trim(line[at + 1..])))
  }

  function ParseLines(lines: seq<string>, fields: map<string, Value>): Option<map<string, Value>>
    decreases |lines|
  {
    if lines == [] then Some(fields)
    else if Blank(lines[0]) then ParseLines(lines[1..], fields)
    else match ParseKey(lines[0], fields)
      case None => None
      case Some((key, rest)) =>
        if rest != "" then
          match ParseScalar(rest)
          case None => None
          case Some(scalar) => ParseLines(lines[1..], fields[key := ToValue(scalar)])
        else
          var (children, rest) := Block(lines[1..]);
          match ParseChildren(children)
          case None => None
          case Some(value) => ParseLines(rest, fields[key := value])
  }

  // ----------------------------------------------------- the parser as it runs

  method ListItems(children: seq<string>) returns (r: Option<seq<map<string, Scalar>>>)
    ensures r == ParseList(children, [])
  {
    var items := [];
    for i := 0 to |children|
      invariant ParseList(children[i..], items) == ParseList(children, [])
    {
      var line := Trim(children[i]);
      var entry := ParseEntry(if Dashed(line) then line[2..] else line);
      if entry.None? { return None; }
      var (key, scalar) := entry.value;
      if Dashed(line) {
        items := items + [map[key := scalar]];
      } else {
        if items == [] || key in items[|items| - 1] { return None; }
        items := items[..|items| - 1] + [items[|items| - 1][key := scalar]];
      }
    }
    return Some(items);
  }

  method MapEntries(children: seq<string>) returns (r: Option<map<string, Scalar>>)
    ensures r == ParseMap(children, map[])
  {
    var entries := map[];
    for i := 0 to |children|
      invariant ParseMap(children[i..], entries) == ParseMap(children, map[])
    {
      var entry := ParseEntry(Trim(children[i]));
      if entry.None? || entry.value.0 in entries { return None; }
      entries := entries[entry.value.0 := entry.value.1];
    }
    return Some(entries);
  }

  /** The lines nested under a key, from `start` on, and where they end. */
  method GatherChildren(lines: seq<string>, start: nat) returns (children: seq<string>, index: nat)
    requires start <= |lines|
    ensures start <= index <= |lines| && children == Block(lines[start..]).0 && lines[index..] == Block(lines[start..]).1
  {
    children, index := [], start;
    while index < |lines| && (Blank(lines[index]) || Indented(lines[index]))
      invariant start <= index <= |lines|
      invariant Block(lines[start..]).0 == children + Block(lines[index..]).0
      invariant Block(lines[start..]).1 == Block(lines[index..]).1
    {
      BlockStep(lines, index);
      if !Blank(lines[index]) { children := children + [lines[index]]; }
      index := index + 1;
    }
  }

  lemma BlockStep(lines: seq<string>, index: nat)
    requires index < |lines| && (Blank(lines[index]) || Indented(lines[index]))
    ensures Block(lines[index..]).1 == Block(lines[index + 1..]).1
    ensures Block(lines[index..]).0
         == (if Blank(lines[index]) then [] else [lines[index]]) + Block(lines[index + 1..]).0
  {
    assert lines[index..][1..] == lines[index + 1..];
  }

  method ChildrenValue(children: seq<string>) returns (r: Option<Value>)
    ensures r == ParseChildren(children)
  {
    if children == [] { return Some(Object(map[])); }
    if Dashed(TrimStart(children[0])) {
      var items := ListItems(children);
      return if items.None? then None else Some(List(items.value));
    }
    var entries := MapEntries(children);
    return if entries.None? then None else Some(Object(entries.value));
  }

  /** The nested value of the key before line `start`, and where it ends. */
  method ParseBlock(lines: seq<string>, start: nat) returns (value: Option<Value>, next: nat)
    requires start <= |lines|
    ensures start <= next <= |lines|
    ensures value == ParseChildren(Block(lines[start..]).0) && lines[next..] == Block(lines[start..]).1
  {
    var children;
    children, next := GatherChildren(lines, start);
    value := ChildrenValue(children);
  }

  lemma ParseHere(lines: seq<string>, index: nat, fields: map<string, Value>)
    requires index < |lines|
    ensures Blank(lines[index]) ==> ParseLines(lines[index..], fields) == ParseLines(lines[index + 1..], fields)
    ensures !Blank(lines[index]) && ParseKey(lines[index], fields).None? ==> ParseLines(lines[index..], fields) == None
    ensures !Blank(lines[index]) && ParseKey(lines[index], fields).Some? ==>
      var (key, rest) := ParseKey(lines[index], fields).value;
      rest != "" ==>
        ParseLines(lines[index..], fields) ==
        match ParseScalar(rest)
        case None => None
        case Some(scalar) => ParseLines(lines[index + 1..], fields[key := ToValue(scalar)])
    ensures !Blank(lines[index]) && ParseKey(lines[index], fields).Some? ==>
      var (key, rest) := ParseKey(lines[index], fields).value;
      rest == "" ==>
        ParseLines(lines[index..], fields) ==
        match ParseChildren(Block(lines[index + 1..]).0)
        case None => None
        case Some(value) => ParseLines(Block(lines[index + 1..]).1, fields[key := value])
  {
    assert lines[index..][1..] == lines[index + 1..];
  }

  method ParseFrontmatterLines(lines: seq<string>) returns (r: Option<map<string, Value>>)
    ensures r == ParseLines(lines, map[])
  {
    var fields: map<string, Value> := map[];
    var index: nat := 0;
    while index < |lines|
      invariant index <= |lines|
      invariant ParseLines(lines[index..], fields) == ParseLines(lines, map[])
    {
      var going;
      going, fields, index := ParseField(lines, index, fields);
      if !going { return None; }
    }
    return Some(fields);
  }

  method ParseField(lines: seq<string>, index: nat, fields: map<string, Value>)
    returns (going: bool, more: map<string, Value>, next: nat)
    requires index < |lines|
    ensures !going ==> ParseLines(lines[index..], fields) == None
    ensures going ==> index < next <= |lines| && ParseLines(lines[index..], fields) == ParseLines(lines[next..], more)
  {
    going, more, next := true, fields, index + 1;
    ParseHere(lines, index, fields);
    if Blank(lines[index]) { return; }
    var head := ParseKey(lines[index], fields);
    if head.None? { return false, fields, index; }
    var (key, rest) := head.value;
    if rest != "" {
      var scalar := ParseScalar(rest);
      if scalar.None? { return false, fields, index; }
      more := fields[key := ToValue(scalar.value)];
    } else {
      var value;
      value, next := ParseBlock(lines, index + 1);
      if value.None? { return false, fields, index; }
      more := fields[key := value.value];
    }
  }
}
