/** Frames as text, and the decoder that takes them apart again however the text is cut into chunks. */
module EventFraming {
  import opened Lines

  // ----------------------------------------------------------------- frames

  /** What goes over the wire: an event with its number and its JSON text, or a ping comment. */
  datatype Item = Event(seqNo: int, json: string) | Ping

  function Decimal(n: nat): string {
    if n < 10 then [(n + '0' as int) as char] else Decimal(n / 10) + [(n % 10 + '0' as int) as char]
  }

  function Number(n: int): string { if n < 0 then "-" + Decimal(-n) else Decimal(n) }

  function Frame(item: Item): string {
    match item
    case Event(n, json) => "id: " + Number(n) + "\n" + "data: " + json + "\n\n"
    case Ping => ": ping" + "\n\n"
  }

  /** JSON texts are not empty, and have no line break or carriage return: these are escaped. */
  predicate Json(text: string) { text != "" && '\n' !in text && '\r' !in text }

  ghost predicate Sendable(items: seq<Item>) {
    forall i :: 0 <= i < |items| && items[i].Event? ==> Json(items[i].json)
  }

  function Stream(items: seq<Item>): string {
    if items == [] then "" else Frame(items[0]) + Stream(items[1..])
  }

  function Payloads(items: seq<Item>): seq<string> {
    if items == [] then []
    else (if items[0].Event? then [items[0].json] else []) + Payloads(items[1..])
  }

  // ---------------------------------------------------------------- decoder

  /** Where the first blank line is; too far right to leave room for it when there is none. */
  function Boundary(s: string): (at: nat)
    ensures at <= |s| && (at + 2 <= |s| ==> s[at] == '\n' && s[at + 1] == '\n')
  {
    if |s| < 2 then |s| else if s[0] == '\n' && s[1] == '\n' then 0 else 1 + Boundary(s[1..])
  }

  predicate IsData(line: string) { |line| >= 5 && line[..5] == "data:" }

  function Value(line: string): string
    requires IsData(line)
  {
    var v := line[5..];
    if v != "" && v[0] == ' ' then v[1..] else v
  }

  /** A data line carries what follows the colon, but for one space; other lines carry nothing. */
  lemma DataLine(v: string, line: string)
    ensures IsData("data:" + v) && IsData("data: " + v) && Value("data: " + v) == v
    ensures (v == "" || v[0] != ' ') ==> Value("data:" + v) == v
    ensures IsData(line) <==> exists rest :: line == "data:" + rest
  {
    assert ("data: " + v)[..5] == "data:" && ("data: " + v)[5..] == " " + v && (" " + v)[1..] == v;
    assert ("data:" + v)[..5] == "data:" && ("data:" + v)[5..] == v;
    if IsData(line) { assert line == "data:" + line[5..]; }
    if rest :| line == "data:" + rest { assert line[..5] == "data:"; }
  }

  function DataLines(lines: seq<string>): seq<string> {
    if lines == [] then []
    else (if IsData(lines[0]) then [Value(lines[0])] else []) + DataLines(lines[1..])
  }

  function Data(frame: string): string { Join(DataLines(SplitLines(frame))) }

  /** A frame without data yields nothing. */
  function Yield(data: string): seq<string> { if data == "" then [] else [data] }

  /** All complete frames of a text, as their data, and the incomplete rest. */
  function Decode(s: string): (r: (seq<string>, string))
    decreases |s|
  {
    var at := Boundary(s);
    if at + 2 > |s| then ([], s)
    else
      var (out, rest) := Decode(s[at + 2..]);
      (Yield(Data(s[..at])) + out, rest)
  }

  /** No complete frame is waiting. */
  predicate Drained(s: string) { Boundary(s) + 2 > |s| }

  lemma {:induction false} DecodeDrains(s: string)
    ensures Drained(Decode(s).1)
    decreases |s|
  {
    if !Drained(s) { DecodeDrains(s[Boundary(s) + 2..]); }
  }

  class Decoder {
    var buffer: string

    ghost predicate Valid()
      reads this
    {
      Drained(buffer)
    }

    constructor ()
      ensures Valid() && buffer == ""
    {
      buffer := "";
    }

    /** One chunk: appended with its CRLFs replaced, then every complete frame is taken off the front. */
    method Feed(chunk: string) returns (out: seq<string>)
      modifies this
      ensures Valid()
      ensures out == Decode(old(buffer) + Normalize(chunk)).0
      ensures buffer == Decode(old(buffer) + Normalize(chunk)).1
    {
      buffer := buffer + Normalize(chunk);
      ghost var start := buffer;
      out := [];
      var boundary := Boundary(buffer);
      while boundary + 2 <= |buffer|
        invariant boundary == Boundary(buffer)
        invariant out + Decode(buffer).0 == Decode(start).0 && Decode(buffer).1 == Decode(start).1
        decreases |buffer|
      {
        var data := Data(buffer[..boundary]);
        Regroup(out, Yield(data), Decode(buffer[boundary + 2..]).0);
        buffer := buffer[boundary + 2..];
        out := out + Yield(data);
        boundary := Boundary(buffer);
      }
    }

    /** `sseEnvelopes`: what a whole body yields. */
    method FeedAll(chunks: seq<string>) returns (out: seq<string>)
      requires Valid()
      modifies this
      ensures Valid()
      ensures out == Decode(old(buffer) + Received(chunks)).0
      ensures buffer == Decode(old(buffer) + Received(chunks)).1
    {
      out := [];
      assert buffer + Received(chunks[..0]) == buffer;
      for i := 0 to |chunks|
        invariant Valid()
        invariant out == Decode(old(buffer) + Received(chunks[..i])).0
        invariant buffer == Decode(old(buffer) + Received(chunks[..i])).1
      {
        var more := Feed(chunks[i]);
        out := out + more;
        ReceivedMore(old(buffer), chunks, i);
        DecodeOn(old(buffer) + Received(chunks[..i]), Normalize(chunks[i]));
      }
      assert chunks[..|chunks|] == chunks;
    }
  }

  lemma ReceivedMore(start: string, chunks: seq<string>, i: nat)
    requires i < |chunks|
    ensures start + Received(chunks[..i + 1]) == start + Received(chunks[..i]) + Normalize(chunks[i])
  {
    assert chunks[..i + 1][..i] == chunks[..i];
  }

  /** The chunks as the decoder joins them: each normalized on its own. */
  function Received(chunks: seq<string>): string {
    if chunks == [] then "" else Received(chunks[..|chunks| - 1]) + Normalize(chunks[|chunks| - 1])
  }

  function Concat(chunks: seq<string>): string {
    if chunks == [] then "" else Concat(chunks[..|chunks| - 1]) + chunks[|chunks| - 1]
  }

  /** A blank line found in a text is found there whatever is appended. */
  lemma {:induction false} BoundaryStays(a: string, b: string)
    requires !Drained(a)
    ensures Boundary(a + b) == Boundary(a)
  {
    if !(a[0] == '\n' && a[1] == '\n') {
      assert (a + b)[1..] == a[1..] + b;
      BoundaryStays(a[1..], b);
    }
  }

  lemma Regroup<T>(a: seq<T>, b: seq<T>, c: seq<T>)
    ensures a + b + c == a + (b + c)
  {
  }

  /** Decoding can stop anywhere and go on with what was left over. */
  lemma {:induction false} DecodeOn(a: string, b: string)
    ensures Decode(a + b).0 == Decode(a).0 + Decode(Decode(a).1 + b).0
    ensures Decode(a + b).1 == Decode(Decode(a).1 + b).1
    decreases |a|
  {
    if !Drained(a) {
      var at := Boundary(a);
      BoundaryStays(a, b);
      assert (a + b)[at + 2..] == a[at + 2..] + b && (a + b)[..at] == a[..at];
      DecodeOn(a[at + 2..], b);
      Regroup(Yield(Data(a[..at])), Decode(a[at + 2..]).0, Decode(Decode(a).1 + b).0);
    }
  }

  // ------------------------------------------------------------- round trip

  lemma {:induction false} BoundarySkips(line: string, s: string)
    requires SingleLine(line)
    ensures Boundary(line + s) == |line| + Boundary(s) || |line + s| < 2
  {
    if line == "" {
      assert line + s == s;
    } else {
      var t := line + s;
      assert line[0] in line;
      assert t[1..] == line[1..] + s;
      if |t| >= 2 {
        BoundarySkips(line[1..], s);
        if |t[1..]| < 2 { assert Boundary(t[1..]) == |t[1..]|; }
      }
    }
  }

  lemma {:induction false} DecimalSingle(n: nat)
    ensures SingleLine(Decimal(n)) && '\r' !in Decimal(n)
  {
    if n >= 10 { DecimalSingle(n / 10); }
  }

  lemma NumberSingle(n: int)
    ensures SingleLine(Number(n)) && '\r' !in Number(n)
  {
    DecimalSingle(if n < 0 then -n else n);
  }

  /** A frame of lines `a` and `b` ends where `b` ends. */
  lemma FrameBoundary(a: string, b: string, rest: string)
    requires SingleLine(a) && SingleLine(b) && b != ""
    ensures Boundary(a + "\n" + b + "\n\n" + rest) == |a| + 1 + |b|
  {
    var tail := "\n\n" + rest;
    assert tail[0] == '\n' && tail[1] == '\n';
    BoundarySkips(b, tail);
    var middle := "\n" + (b + tail);
    assert b[0] in b;
    assert middle[1] == b[0] && middle[1..] == b + tail;
    BoundarySkips(a, middle);
    assert a + "\n" + b + "\n\n" + rest == a + middle;
  }

  lemma NotData(line: string)
    requires line != "" && line[0] != 'd'
    ensures !IsData(line)
  {
    if |line| >= 5 { assert line[..5][0] != "data:"[0]; }
  }

  lemma OneData(line: string, json: string)
    requires IsData(line) && Value(line) == json
    ensures DataLines([line]) == [json]
  {
    var none: seq<string> := [];
    assert [line][1..] == none;
  }

  lemma EventData(n: int, json: string)
    requires Json(json)
    ensures Data("id: " + Number(n) + "\n" + ("data: " + json)) == json
  {
    NumberSingle(n);
    var a, b := "id: " + Number(n), "data: " + json;
    SplitAtBreak(a, b);
    SplitLast(b);
    NotData(a);
    assert IsData(b) && b[5..] == " " + json && Value(b) == json;
    var lines := [a] + [b];
    assert lines[1..] == [b];
    OneData(b, json);
    assert DataLines(lines) == [json];
  }

  lemma SplitLast(s: string)
    requires SingleLine(s)
    ensures SplitLines(s) == [s]
  {
    assert s + "" == s;
    SplitHead(s, "");
    assert SplitLines("") == [""];
    assert s + FirstLine("") == s;
  }

  lemma EventDecodes(n: int, json: string, rest: string)
    requires Json(json)
    ensures Decode(Frame(Event(n, json)) + rest).0 == [json] + Decode(rest).0
    ensures Decode(Frame(Event(n, json)) + rest).1 == Decode(rest).1
  {
    NumberSingle(n);
    var a, b := "id: " + Number(n), "data: " + json;
    var s := Frame(Event(n, json)) + rest;
    assert s == a + "\n" + b + "\n\n" + rest;
    FrameBoundary(a, b, rest);
    assert s[..|a| + 1 + |b|] == a + "\n" + b;
    assert s[|a| + 1 + |b| + 2..] == rest;
    EventData(n, json);
  }

  lemma PingData()
    ensures Data(": ping") == ""
  {
    SplitLast(": ping");
    NotData(": ping");
    var none: seq<string> := [];
    assert [": ping"][1..] == none;
  }

  /** One frame, and then the rest. */
  lemma DecodeFirst(s: string, at: nat)
    requires Boundary(s) == at && at + 2 <= |s|
    ensures Decode(s) == (Yield(Data(s[..at])) + Decode(s[at + 2..]).0, Decode(s[at + 2..]).1)
  {
  }

  lemma PingDecodes(rest: string)
    ensures Decode(Frame(Ping) + rest).0 == Decode(rest).0 && Decode(Frame(Ping) + rest).1 == Decode(rest).1
  {
    var tail := "\n\n" + rest;
    assert tail[0] == '\n' && tail[1] == '\n';
    BoundarySkips(": ping", tail);
    var s := Frame(Ping) + rest;
    assert s == ": ping" + tail;
    assert s[..6] == ": ping" && s[8..] == rest;
    PingData();
    DecodeFirst(s, 6);
    assert [] + Decode(rest).0 == Decode(rest).0;
  }

  lemma {:induction false} StreamDecodes(items: seq<Item>)
    requires Sendable(items)
    ensures Decode(Stream(items)).0 == Payloads(items) && Decode(Stream(items)).1 == ""
  {
    if items != [] {
      StreamDecodes(items[1..]);
      match items[0]
      case Event(n, json) => EventDecodes(n, json, Stream(items[1..]));
      case Ping => PingDecodes(Stream(items[1..]));
    }
  }

  // ---------------------------------------------------------------- chunking

  /** The chunks cut no CRLF in two. */
  ghost predicate CutsNoCrlf(chunks: seq<string>) {
    chunks == []
    || var n := |chunks| - 1;
       CutsNoCrlf(chunks[..n]) && !Meets(Concat(chunks[..n]), chunks[n])
  }

  /** A CR at the end of one text meets a line feed at the start of the next. */
  predicate Meets(a: string, b: string) { a != "" && a[|a| - 1] == '\r' && b != "" && b[0] == '\n' }

  lemma NormalizeBreak(t: string)
    ensures Normalize("\r\n" + t) == "\n" + Normalize(t)
  {
    assert ("\r\n" + t)[2..] == t;
  }

  lemma NormalizeChar(c: char, t: string)
    requires !Meets([c], t)
    ensures Normalize([c] + t) == [c] + Normalize(t)
  {
    assert ([c] + t)[1..] == t;
  }

  lemma NormalizeOne(c: char, b: string)
    ensures !Meets([c], b) ==> Normalize([c] + b) == Normalize([c]) + Normalize(b)
    ensures Meets([c], b) ==> |Normalize([c] + b)| < |Normalize([c]) + Normalize(b)|
  {
    NormalizeChar(c, "");
    assert [c] + "" == [c];
    if Meets([c], b) {
      assert [c] + b == "\r\n" + b[1..];
      NormalizeBreak(b[1..]);
      NormalizeChar('\n', b[1..]);
      assert b == ['\n'] + b[1..];
    } else {
      NormalizeChar(c, b);
    }
  }

  /** Normalizing two texts apart is normalizing them together, unless they cut a CRLF: then it is one CR too many. */
  lemma {:induction false} NormalizeConcat(a: string, b: string)
    ensures !Meets(a, b) ==> Normalize(a + b) == Normalize(a) + Normalize(b)
    ensures Meets(a, b) ==> |Normalize(a + b)| < |Normalize(a) + Normalize(b)|
    decreases |a|
  {
    if a == "" {
      assert a + b == b;
    } else if Meets([a[0]], a[1..]) {
      var t := a[2..];
      assert a == "\r\n" + t && a + b == "\r\n" + (t + b);
      NormalizeBreak(t);
      NormalizeBreak(t + b);
      NormalizeConcat(t, b);
      assert "\n" + (Normalize(t) + Normalize(b)) == "\n" + Normalize(t) + Normalize(b);
    } else if |a| == 1 {
      assert a == [a[0]];
      NormalizeOne(a[0], b);
    } else {
      var c, t := a[0], a[1..];
      assert a == [c] + t && a + b == [c] + (t + b) && (t + b)[0] == t[0];
      NormalizeChar(c, t);
      NormalizeChar(c, t + b);
      NormalizeConcat(t, b);
      assert [c] + (Normalize(t) + Normalize(b)) == [c] + Normalize(t) + Normalize(b);
    }
  }

  /** The decoder sees the normalized body if and only if no chunk boundary cuts a CRLF. */
  lemma {:induction false} ReceivedExact(chunks: seq<string>)
    ensures |Received(chunks)| >= |Normalize(Concat(chunks))|
    ensures CutsNoCrlf(chunks) <==> Received(chunks) == Normalize(Concat(chunks))
    ensures !CutsNoCrlf(chunks) ==> |Received(chunks)| > |Normalize(Concat(chunks))|
  {
    if chunks != [] {
      var n := |chunks| - 1;
      ReceivedExact(chunks[..n]);
      NormalizeConcat(Concat(chunks[..n]), chunks[n]);
    }
  }

  lemma {:induction false} NoReturnNoCut(chunks: seq<string>)
    requires '\r' !in Concat(chunks)
    ensures CutsNoCrlf(chunks)
  {
    if chunks != [] {
      var n := |chunks| - 1;
      forall c | c in Concat(chunks[..n]) ensures c != '\r' { assert c in Concat(chunks); }
      NoReturnNoCut(chunks[..n]);
    }
  }

  lemma FrameNoReturn(item: Item)
    requires item.Event? ==> Json(item.json)
    ensures '\r' !in Frame(item)
  {
    if item.Event? { NumberSingle(item.seqNo); }
  }

  lemma {:induction false} StreamNoReturn(items: seq<Item>)
    requires Sendable(items)
    ensures '\r' !in Stream(items)
  {
    if items != [] {
      FrameNoReturn(items[0]);
      StreamNoReturn(items[1..]);
    }
  }

  lemma NoReturnNormal(s: string)
    requires '\r' !in s
    ensures Normalize(s) == s
  {
    forall i | 0 <= i < |s| - 1 ensures s[i] != '\r' { assert s[i] in s; }
    NormalizeExact(s);
  }

  /** However a stream is cut into chunks, exactly the published events come out, in order, and nothing is left over. */
  lemma AnyChunking(items: seq<Item>, chunks: seq<string>)
    requires Sendable(items) && Concat(chunks) == Stream(items)
    ensures Decode("" + Received(chunks)).0 == Payloads(items) && Decode("" + Received(chunks)).1 == ""
  {
    StreamNoReturn(items);
    NoReturnNoCut(chunks);
    ReceivedExact(chunks);
    NoReturnNormal(Stream(items));
    StreamDecodes(items);
    assert "" + Received(chunks) == Received(chunks);
  }

  /** A stream cut off anywhere yields the events whose frames had arrived in full: a prefix of those published. */
  lemma CutOff(items: seq<Item>, chunks: seq<string>, lost: string)
    requires Sendable(items) && Concat(chunks) + lost == Stream(items)
    ensures Decode("" + Received(chunks)).0 <= Payloads(items)
  {
    StreamNoReturn(items);
    forall c | c in Concat(chunks) ensures c != '\r' { assert c in Stream(items); }
    NoReturnNoCut(chunks);
    ReceivedExact(chunks);
    NoReturnNormal(Concat(chunks));
    StreamDecodes(items);
    DecodeOn(Concat(chunks), lost);
    assert "" + Received(chunks) == Received(chunks);
  }

  method Receive(ghost items: seq<Item>, chunks: seq<string>) returns (envelopes: seq<string>)
    requires Sendable(items) && Concat(chunks) == Stream(items)
    ensures envelopes == Payloads(items)
  {
    var decoder := new Decoder();
    envelopes := decoder.FeedAll(chunks);
    AnyChunking(items, chunks);
  }

  lemma CrlfPieces()
    ensures Normalize("\r\n\r\n") == "\n\n" && Normalize("\r\n\r") == "\n\r" && Normalize("\n") == "\n"
    ensures Boundary("\n\r\n") == 3
  {
    assert "\r\n\r\n"[2..] == "\r\n" && "\r\n"[2..] == "";
    assert Normalize("\r\n") == "\n";
    assert "\r\n\r"[2..] == "\r" && "\r"[1..] == "";
    assert Normalize("\r") == "\r";
    assert "\n"[1..] == "";
    assert "\n\r\n"[1..] == "\r\n" && "\r\n"[1..] == "\n";
    assert Boundary("\r\n") == 2;
  }

  /** With CRLF line ends the cut matters: made inside the last CRLF, it keeps the event from coming out. */
  lemma CrlfCutHidesEvent(json: string)
    requires Json(json)
    ensures var line := "data: " + json;
      && Decode(Normalize(line + "\r\n\r\n")).0 == [json]
      && Decode(Normalize(line + "\r\n\r") + Normalize("\n")).0 == []
  {
    var line := "data: " + json;
    CrlfPieces();
    assert NoCrlf(line) && line[|line| - 1] != '\r';
    NormalizeHead(line, "\r\n\r\n");
    NormalizeHead(line, "\r\n\r");
    var whole := line + "\n\n";
    BoundarySkips(line, "\n\n");
    assert whole[..|line|] == line && whole[|line| + 2..] == "";
    LineData(json);
    assert line + "\n\r" + "\n" == line + "\n\r\n";
    BoundarySkips(line, "\n\r\n");
  }

  lemma LineData(json: string)
    requires Json(json)
    ensures Data("data: " + json) == json
  {
    var line := "data: " + json;
    SplitLast(line);
    assert line[5..] == " " + json;
    OneData(line, json);
  }
}
