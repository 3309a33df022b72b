/** Printing and parsing whole memory documents. */
module MemoryDocument {
  import opened Options
  import opened Texts
  import opened Lines
  import opened MemoryText
  import opened MemoryRecords
  import opened MemoryFormat

  /** `Date.parse` of a well-formed instant, when it is a date. */
  type Clock = string -> Option<int>

  type Doc = Memory<string>

  // ------------------------------------------------------------- validation

  predicate Digit(c: char) { '0' <= c <= '9' }

  predicate LowerOrDigit(c: char) { 'a' <= c <= 'z' || Digit(c) }

  predicate HexDigit(c: char) { Digit(c) || 'a' <= c <= 'f' || 'A' <= c <= 'F' }

  /** `YYYY-MM-DDTHH:MM:SS.mmmZ` */
  predicate Iso(s: string) {
    && |s| == 24
    && s[4] == '-' && s[7] == '-' && s[10] == 'T' && s[13] == ':' && s[16] == ':' && s[19] == '.' && s[23] == 'Z'
    && forall i :: 0 <= i < 24 && i !in {4, 7, 10, 13, 16, 19, 23} ==> Digit(s[i])
  }

  predicate IsInstant(s: string, clock: Clock) { Iso(s) && clock(s).Some? }

  predicate Separator(c: char) { c == '-' || c == '_' }

  /** Lower-case words and numbers, joined by single `-` or `_`. */
  predicate TypeToken(s: string) {
    && s != "" && LowerOrDigit(s[0]) && LowerOrDigit(s[|s| - 1])
    && (forall i :: 0 <= i < |s| ==> LowerOrDigit(s[i]) || Separator(s[i]))
    && (forall i :: 0 < i < |s| && Separator(s[i - 1]) ==> !Separator(s[i]))
  }

  predicate AgentId(s: string) {
    |s| > 4 && s[..4] == "agt_" && forall i :: 4 <= i < |s| ==> LowerOrDigit(s[i])
  }

  predicate Color(s: string) { |s| == 7 && s[0] == '#' && forall i :: 1 <= i < 7 ==> HexDigit(s[i]) }

  predicate ValidSource(source: Source, clock: Clock) {
    match source
    case Message(space, message) => space != "" && message != ""
    case DeletedMessage(space, message, deletedAt) => space != "" && message != "" && IsInstant(deletedAt, clock)
    case Manual(actor, capturedAt) => (actor == "user" || actor == "legacy") && IsInstant(capturedAt, clock)
  }

  /** `validateMemoryFields` */
  predicate Valid(m: Doc, clock: Clock) {
    && TypeToken(m.kind)
    && Trim(m.description) != "" && '\r' !in m.description && '\n' !in m.description
    && (forall owner :: owner in m.stains ==> AgentId(owner) && Color(m.stains[owner]))
    && IsInstant(m.createdAt, clock) && IsInstant(m.updatedAt, clock)
    && clock(m.updatedAt).value >= clock(m.createdAt).value
    && m.sources != [] && forall i :: 0 <= i < |m.sources| ==> ValidSource(m.sources[i], clock)
  }

  // ---------------------------------------------------------------- printer

  function Field(key: string, v: string): string { key + ": " + v }

  function Entry(key: string, v: string): string { "    " + key + ": " + v }

  function SourceLines(source: Source): seq<string> {
    match source
    case Message(space, message) =>
      ["  - " + Field("kind", "message"), Entry("spaceId", space), Entry("messageId", message)]
    case DeletedMessage(space, message, deletedAt) =>
      ["  - " + Field("kind", "deleted-message"), Entry("spaceId", space), Entry("messageId", message), Entry("deletedAt", deletedAt)]
    case Manual(actor, capturedAt) =>
      ["  - " + Field("kind", "manual"), Entry("actor", actor), Entry("capturedAt", capturedAt)]
  }

  function SourcesLines(sources: seq<Source>): seq<string> {
    if sources == [] then [] else SourceLines(sources[0]) + SourcesLines(sources[1..])
  }

  function StatusText(status: Status): string { if status == Active then "active" else "archived" }

  function StainLine(owner: string, stains: map<string, string>): string
    requires owner in stains
  {
    "  " + Field(owner, Quoted(stains[owner]))
  }

  function StainLines(order: seq<string>, stains: map<string, string>): seq<string>
    requires forall o :: o in order ==> o in stains
  {
    seq(|order|, i requires 0 <= i < |order| => StainLine(order[i], stains))
  }

  function HeadLines(m: Doc): seq<string> {
    ["---", Field("schemaVersion", "1"), "scope:", "  " + Field("type", "agent"), "  " + Field("agentId", m.agentId), "sources:"]
  }

  function MiddleLines(m: Doc): seq<string> {
    [Field("type", m.kind), Field("description", Quoted(m.description)), Field("status", StatusText(m.status))]
  }

  function StainsBlock(m: Doc, order: seq<string>): seq<string>
    requires forall o :: o in order ==> o in m.stains
  {
    if order == [] then [Field("stains", "{}")] else ["stains:"] + StainLines(order, m.stains)
  }

  function TailLines(m: Doc): seq<string> {
    [Field("createdAt", m.createdAt), Field("updatedAt", m.updatedAt)]
  }

  function FrontLines(m: Doc, order: seq<string>): seq<string>
    requires forall o :: o in order ==> o in m.stains
  {
    HeadLines(m) + SourcesLines(m.sources) + MiddleLines(m) + StainsBlock(m, order) + TailLines(m) + ["---"]
  }

  /** The document of a memory whose stains are printed in this order. */
  function Document(m: Doc, order: seq<string>): string
    requires forall o :: o in order ==> o in m.stains
  {
    Join(FrontLines(m, order)) + "\n\n" + m.content + "\n"
  }

  method PushSources(sources: seq<Source>, start: seq<string>) returns (lines: seq<string>)
    ensures lines == start + SourcesLines(sources)
  {
    lines := start;
    for i := 0 to |sources|
      invariant lines + SourcesLines(sources[i..]) == start + SourcesLines(sources)
    {
      assert sources[i..][1..] == sources[i + 1..];
      lines := lines + SourceLines(sources[i]);
    }
  }

  method PushStains(stains: map<string, string>, order: seq<string>, start: seq<string>) returns (lines: seq<string>)
    requires forall o :: o in order ==> o in stains
    ensures lines == start + StainLines(order, stains)
  {
    lines := start;
    for k := 0 to |order|
      invariant lines == start + StainLines(order, stains)[..k]
    {
      assert order[k] in order;
      lines := lines + [StainLine(order[k], stains)];
    }
  }

  method SerializeFrontmatter(m: Doc) returns (lines: seq<string>, order: seq<string>)
    ensures Enumerates(order, m.stains.Keys) && lines == FrontLines(m, order)
  {
    lines := PushSources(m.sources, HeadLines(m));
    lines := lines + MiddleLines(m);
    order := SortedKeys(m.stains.Keys);
    ghost var before := lines;
    if order == [] {
      lines := lines + [Field("stains", "{}")];
    } else {
      lines := PushStains(m.stains, order, lines + ["stains:"]);
      assert before + ["stains:"] + StainLines(order, m.stains) == before + (["stains:"] + StainLines(order, m.stains));
    }
    lines := lines + TailLines(m) + ["---"];
  }

  /** The document of a memory: its stains are printed in the order of their owners. */
  ghost function Canonical(m: Doc): string { Document(m, Arrange(m.stains.Keys)) }

  method SerializeMemoryDocument(m: Doc) returns (text: string)
    ensures text == Canonical(m)
  {
    var lines, order := SerializeFrontmatter(m);
    EnumerationUnique(order, Arrange(m.stains.Keys), m.stains.Keys);
    text := Join(lines) + "\n\n" + m.content + "\n";
  }

  // ----------------------------------------------------------------- parser

  function TextAt(fields: map<string, Scalar>, key: string): Option<string> {
    if key in fields && fields[key].Text? then Some(fields[key].text) else None
  }

  /** `validateSources` on one parsed item. */
  function ToSource(fields: map<string, Scalar>, clock: Clock): Option<Source> {
    var kind := TextAt(fields, "kind");
    var found :=
      if kind == Some("message") && fields.Keys == {"kind", "spaceId", "messageId"} then
        Shape2(TextAt(fields, "spaceId"), TextAt(fields, "messageId"), (a, b) => Message(a, b))
      else if kind == Some("deleted-message") && fields.Keys == {"kind", "spaceId", "messageId", "deletedAt"} then
        match TextAt(fields, "deletedAt")
        case None => None
        case Some(at) =>
          Shape2(TextAt(fields, "spaceId"), TextAt(fields, "messageId"), (a, b) => DeletedMessage(a, b, at))
      else if kind == Some("manual") && fields.Keys == {"kind", "actor", "capturedAt"} then
        Shape2(TextAt(fields, "actor"), TextAt(fields, "capturedAt"), (a, b) => Manual(a, b))
      else None;
    if found.Some? && ValidSource(found.value, clock) then found else None
  }

  function Shape2(a: Option<string>, b: Option<string>, make: (string, string) -> Source): Option<Source> {
    if a.Some? && b.Some? then Some(make(a.value, b.value)) else None
  }

  function ToSources(items: seq<map<string, Scalar>>, clock: Clock): Option<seq<Source>> {
    if items == [] then Some([])
    else match ToSource(items[0], clock)
      case None => None
      case Some(source) =>
        match ToSources(items[1..], clock)
        case None => None
        case Some(rest) => Some([source] + rest)
  }

  function ToStains(entries: map<string, Scalar>): Option<map<string, string>> {
    if forall k :: k in entries ==> entries[k].Text? then Some(map k | k in entries :: entries[k].text) else None
  }

  function PlainText(fields: map<string, Value>, key: string): Option<string> {
    if key in fields && fields[key].Plain? && fields[key].scalar.Text? then Some(fields[key].scalar.text) else None
  }

  const FRONTMATTER_KEYS := {"schemaVersion", "scope", "sources", "type", "description", "status", "stains", "createdAt", "updatedAt"}

  const LEGACY_KEYS := {"type", "description", "status", "stains", "createdAt", "updatedAt"}

  function ToStatus(text: string): Option<Status> {
    if text == "active" then Some(Active) else if text == "archived" then Some(Archived) else None
  }

  predicate ScopeOf(value: Value, agentId: string) {
    value == Object(map["type" := Text("agent"), "agentId" := Text(agentId)])
  }

  function SourcesOf(value: Value, clock: Clock): Option<seq<Source>> {
    if value.List? then ToSources(value.items, clock) else None
  }

  function StainsOf(value: Value): Option<map<string, string>> {
    if value.Object? then ToStains(value.entries) else None
  }

  /** The fields shared by current and legacy documents. */
  function Assemble(fields: map<string, Value>, sources: seq<Source>, body: string, agentId: string,
        clock: Clock): Option<Doc>
    requires LEGACY_KEYS <= fields.Keys
  {
    var kind, description, status := PlainText(fields, "type"), PlainText(fields, "description"), PlainText(fields, "status");
    var stains := StainsOf(fields["stains"]);
    var createdAt, updatedAt := PlainText(fields, "createdAt"), PlainText(fields, "updatedAt");
    if kind.None? || description.None? || status.None? || stains.None? || createdAt.None? || updatedAt.None?
       || ToStatus(status.value).None? then None
    else
      var m := Memory(agentId, sources, kind.value, description.value, ToStatus(status.value).value,
                      stains.value, createdAt.value, updatedAt.value, body);
      if Valid(m, clock) then Some(m) else None
  }

  datatype Parsed = Parsed(memory: Doc, legacy: bool)

  function FromFields(fields: map<string, Value>, body: string, agentId: string, clock: Clock): Option<Parsed> {
    if fields.Keys == LEGACY_KEYS then
      match PlainText(fields, "createdAt")
      case None => None
      case Some(createdAt) =>
        match Assemble(fields, [Manual("legacy", createdAt)], body, agentId, clock)
        case None => None
        case Some(m) => Some(Parsed(m, true))
    else if fields.Keys != FRONTMATTER_KEYS || fields["schemaVersion"] != Plain(Num(1))
            || !ScopeOf(fields["scope"], agentId) || SourcesOf(fields["sources"], clock).None? then None
    else
      match Assemble(fields, SourcesOf(fields["sources"], clock).value, body, agentId, clock)
      case None => None
      case Some(m) => Some(Parsed(m, false))
  }

  function FindEnd(lines: seq<string>): (n: nat)
    ensures n <= |lines| && (n < |lines| ==> lines[n] == "---")
  {
    if lines == [] || lines[0] == "---" then 0 else 1 + FindEnd(lines[1..])
  }

  function StripBreaks(s: string): string {
    var t := if s != "" && s[0] == '\n' then s[1..] else s;
    if t != "" && t[|t| - 1] == '\n' then t[..|t| - 1] else t
  }

  /** `splitFrontmatter`, without the parse of the front matter itself. */
  function Split(raw: string): Option<(seq<string>, string)> {
    var lines := SplitLines(Normalize(raw));
    var end := FindEnd(lines[1..]);
    if lines[0] != "---" || end == |lines| - 1 then None
    else Some((lines[1..][..end], StripBreaks(Join(lines[1..][end + 1..]))))
  }

  function Parse(raw: string, agentId: string, clock: Clock): Option<Parsed> {
    match Split(raw)
    case None => None
    case Some((front, body)) =>
      match ParseLines(front, map[])
      case None => None
      case Some(fields) => FromFields(fields, body, agentId, clock)
  }

  method ParseMemoryDocument(raw: string, agentId: string, clock: Clock) returns (r: Option<Parsed>)
    ensures r == Parse(raw, agentId, clock)
  {
    var split := Split(raw);
    if split.None? { return None; }
    var fields := ParseFrontmatterLines(split.value.0);
    if fields.None? { return None; }
    return FromFields(fields.value, split.value.1, agentId, clock);
  }
}
