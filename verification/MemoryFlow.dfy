/** Scope, sources and stains written as one-line JSON mean what they mean as nested lines. */
module MemoryFlow {
  import opened Options
  import opened MemoryText
  import opened MemoryJson
  import opened MemoryRecords
  import opened MemoryFormat
  import opened MemoryDocument
  import opened MemoryRoundTrip

  lemma {:induction false} ItemsEndIn(items: seq<Form>)
    requires items != []
    ensures PrintItems(items) != "" && PrintItems(items)[|PrintItems(items)| - 1] == ']'
  {
    if |items| > 1 { ItemsEndIn(items[1..]); }
  }

  lemma {:induction false} MembersEndIn(members: seq<Member>)
    requires members != []
    ensures PrintMembers(members) != "" && PrintMembers(members)[|PrintMembers(members)| - 1] == '}'
  {
    if |members| > 1 { MembersEndIn(members[1..]); }
  }

  lemma FlowText(s: string, json: Json)
    requires |s| > 2 && s[0] in {'[', '{'} && s[|s| - 1] in {']', '}'} && ParseJson(s) == Some(json)
    ensures ParseScalar(s) == Some(Flow(json))
  {
    TrimTrimmed(s);
  }

  lemma FlowEnds(form: Form)
    requires (form.ArrayForm? && form.items != []) || (form.ObjectForm? && form.members != [])
    ensures var s := Print(form); |s| > 2 && s[0] in {'[', '{'} && s[|s| - 1] in {']', '}'}
  {
    if form.ArrayForm? {
      ItemsEndIn(form.items);
      PrintStarts(form.items[0]);
      assert |PrintItems(form.items)| > 1;
    } else {
      MembersEndIn(form.members);
      assert |PrintMembers(form.members)| > 1;
    }
  }

  /** In place of a scalar, a printed list or object with something in it is that JSON value. */
  lemma FlowScalar(form: Form)
    requires (form.ArrayForm? && form.items != []) || (form.ObjectForm? && form.members != [])
    ensures ParseScalar(Print(form)) == Some(Flow(Meaning(form)))
  {
    FlowEnds(form);
    JsonRoundTrip(form);
    FlowText(Print(form), Meaning(form));
  }

  function Pair(key: string, text: string): Member { Member(key, TextForm(text)) }

  function SourceMembers(source: Source): seq<Member> {
    match source
    case Message(space, message) => [Pair("kind", "message"), Pair("spaceId", space), Pair("messageId", message)]
    case DeletedMessage(space, message, deletedAt) =>
      [Pair("kind", "deleted-message"), Pair("spaceId", space), Pair("messageId", message), Pair("deletedAt", deletedAt)]
    case Manual(actor, capturedAt) => [Pair("kind", "manual"), Pair("actor", actor), Pair("capturedAt", capturedAt)]
  }

  function SourcesForm(sources: seq<Source>): Form {
    ArrayForm(seq(|sources|, i requires 0 <= i < |sources| => ObjectForm(SourceMembers(sources[i]))))
  }

  /** The entries of pairs of keys and texts, later ones on top. */
  function TextsOf(pairs: seq<Member>, entries: map<string, Scalar>): map<string, Scalar>
    requires forall i :: 0 <= i < |pairs| ==> pairs[i].form.TextForm?
  {
    if pairs == [] then entries else TextsOf(pairs[1..], entries[pairs[0].key := Text(pairs[0].form.text)])
  }

  lemma {:induction false} EntriesRead(pairs: seq<Member>, entries: map<string, Json>)
    requires forall i :: 0 <= i < |pairs| ==> pairs[i].form.TextForm?
    ensures FromEntries(Entries(pairs, entries)) == TextsOf(pairs, FromEntries(entries))
  {
    if pairs != [] {
      var key, text := pairs[0].key, pairs[0].form.text;
      assert FromEntries(entries[key := JsonString(text)]) == FromEntries(entries)[key := Text(text)];
      EntriesRead(pairs[1..], entries[key := JsonString(text)]);
    }
  }

  lemma TwoTexts(a: string, x: string, b: string, y: string, entries: map<string, Scalar>)
    ensures TextsOf([Pair(a, x), Pair(b, y)], entries) == entries[a := Text(x)][b := Text(y)]
  {
    var pairs, last, first := [Pair(a, x), Pair(b, y)], [Pair(b, y)], entries[a := Text(x)];
    assert pairs[1..] == last && last[1..] == [];
    assert TextsOf(pairs, entries) == TextsOf(last, first);
    assert TextsOf(last, first) == TextsOf(last[1..], first[b := Text(y)]);
  }

  lemma SourceTexts(source: Source)
    ensures TextsOf(SourceMembers(source), map[]) == SourceFields(source)
  {
    var pairs := SourceMembers(source);
    match source
    case Message(x, y) =>
      assert pairs[1..] == [Pair("spaceId", x), Pair("messageId", y)];
      TwoTexts("spaceId", x, "messageId", y, map["kind" := Text("message")]);
    case DeletedMessage(x, y, at) =>
      assert pairs[1..][1..] == [Pair("messageId", y), Pair("deletedAt", at)];
      TwoTexts("messageId", y, "deletedAt", at, map["kind" := Text("deleted-message"), "spaceId" := Text(x)]);
    case Manual(x, at) =>
      assert pairs[1..] == [Pair("actor", x), Pair("capturedAt", at)];
      TwoTexts("actor", x, "capturedAt", at, map["kind" := Text("manual")]);
  }

  lemma SourceMeans(source: Source)
    ensures Meaning(ObjectForm(SourceMembers(source))).JsonObject?
    ensures FromEntries(Meaning(ObjectForm(SourceMembers(source))).entries) == SourceFields(source)
  {
    EntriesRead(SourceMembers(source), map[]);
    assert FromEntries(map[]) == map[];
    SourceTexts(source);
  }

  lemma {:induction false} AllFieldsAt(sources: seq<Source>, i: nat)
    requires i < |sources|
    ensures |AllFields(sources)| == |sources| && AllFields(sources)[i] == SourceFields(sources[i])
  {
    if |sources| > 1 { AllFieldsAt(sources[1..], if i == 0 then 0 else i - 1); }
  }

  lemma SourcesMean(sources: seq<Source>)
    requires sources != []
    ensures ToValue(Flow(Meaning(SourcesForm(sources)))) == List(AllFields(sources))
  {
    var items := Meaning(SourcesForm(sources)).items;
    AllFieldsAt(sources, 0);
    forall i | 0 <= i < |sources| ensures items[i].JsonObject? && FromEntries(items[i].entries) == AllFields(sources)[i] {
      SourceMeans(sources[i]);
      AllFieldsAt(sources, i);
    }
    assert FromObjects(items) == AllFields(sources);
  }

  /** Sources on one line read back whatever their ids are: unlike nested lines, JSON quotes them. */
  lemma FlowSources(sources: seq<Source>, clock: Clock)
    requires sources != [] && forall i :: 0 <= i < |sources| ==> ValidSource(sources[i], clock)
    ensures ParseScalar(Print(SourcesForm(sources))).Some?
    ensures SourcesOf(ToValue(ParseScalar(Print(SourcesForm(sources))).value), clock) == Some(sources)
  {
    FlowScalar(SourcesForm(sources));
    SourcesMean(sources);
    SourcesRead(sources, clock);
  }

  function StainPairs(order: seq<string>, stains: map<string, string>): seq<Member>
    requires forall o :: o in order ==> o in stains
  {
    seq(|order|, i requires 0 <= i < |order| => Pair(order[i], stains[order[i]]))
  }

  lemma {:induction false} StainTexts(order: seq<string>, stains: map<string, string>, entries: map<string, Scalar>)
    requires forall o :: o in order ==> o in stains
    ensures TextsOf(StainPairs(order, stains), entries) == entries + StainFields(order, stains)
  {
    if order != [] {
      StainTexts(order[1..], stains, entries[order[0] := Text(stains[order[0]])]);
      assert StainPairs(order, stains)[1..] == StainPairs(order[1..], stains);
    }
  }

  lemma FieldsAreStains(order: seq<string>, stains: map<string, string>)
    requires forall o :: o in order <==> o in stains
    ensures ToStains(StainFields(order, stains)) == Some(stains)
  {
    var fields := StainFields(order, stains);
    assert fields.Keys == stains.Keys;
    assert (map k | k in fields :: fields[k].text) == stains;
  }

  /** Stains on one line, in any order, read back. */
  lemma FlowStains(order: seq<string>, stains: map<string, string>)
    requires order != [] && (forall o :: o in order <==> o in stains)
    ensures var line := Print(ObjectForm(StainPairs(order, stains)));
      ParseScalar(line).Some? && StainsOf(ToValue(ParseScalar(line).value)) == Some(stains)
  {
    var pairs := StainPairs(order, stains);
    FlowScalar(ObjectForm(pairs));
    EntriesRead(pairs, map[]);
    StainTexts(order, stains, map[]);
    assert FromEntries(map[]) == map[];
    assert map[] + StainFields(order, stains) == StainFields(order, stains);
    FieldsAreStains(order, stains);
  }

  /** And so does the scope. */
  lemma FlowScope(agentId: string)
    ensures var line := Print(ObjectForm([Pair("type", "agent"), Pair("agentId", agentId)]));
      ParseScalar(line).Some? && ScopeOf(ToValue(ParseScalar(line).value), agentId)
  {
    var pairs := [Pair("type", "agent"), Pair("agentId", agentId)];
    FlowScalar(ObjectForm(pairs));
    EntriesRead(pairs, map[]);
    assert FromEntries(map[]) == map[];
    TwoTexts("type", "agent", "agentId", agentId, map[]);
  }
}
