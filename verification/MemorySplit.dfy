/** How a printed document falls apart into front matter and body. */
module MemorySplit {
  import opened Options
  import opened Lines
  import opened MemoryDocument

  /** Printed lines the parser sees unchanged: no line break, no CR at the end. */
  predicate Clean(line: string) { SingleLine(line) && (line == "" || line[|line| - 1] != '\r') }

  predicate CleanLines(lines: seq<string>) { lines == [] || (Clean(lines[0]) && CleanLines(lines[1..])) }

  lemma {:induction false} CleanConcat(a: seq<string>, b: seq<string>)
    requires CleanLines(a) && CleanLines(b)
    ensures CleanLines(a + b)
  {
    if a == [] {
      assert a + b == b;
    } else {
      assert (a + b)[1..] == a[1..] + b;
      CleanConcat(a[1..], b);
    }
  }

  lemma {:induction false} CleanSingle(lines: seq<string>)
    requires CleanLines(lines)
    ensures SingleLines(lines)
  {
    if lines != [] { CleanSingle(lines[1..]); }
  }

  lemma CleanNoCrlf(line: string, rest: string)
    requires Clean(line) && NoCrlf(rest)
    ensures NoCrlf(line + "\n" + rest)
  {
    var s := line + "\n" + rest;
    forall i | 0 <= i < |s| - 1 ensures !(s[i] == '\r' && s[i + 1] == '\n') {
      if i + 1 < |line| {
        assert s[i + 1] == line[i + 1] && line[i + 1] in line;
      } else if i + 1 == |line| {
        assert s[i] == line[i];
      } else if i > |line| {
        assert s[i] == rest[i - |line| - 1] && s[i + 1] == rest[i - |line|];
      }
    }
  }

  lemma {:induction false} JoinNoCrlf(lines: seq<string>)
    requires lines != [] && CleanLines(lines)
    ensures NoCrlf(Join(lines) + "\n")
  {
    if |lines| == 1 {
      CleanNoCrlf(lines[0], "");
      assert lines[0] + "\n" + "" == Join(lines) + "\n";
    } else {
      JoinNoCrlf(lines[1..]);
      JoinHead(lines, "");
      CleanNoCrlf(lines[0], Join(lines[1..]) + "\n");
      assert Join(lines[1..]) + "\n" + "" == Join(lines[1..]) + "\n";
      assert Join(lines) + "\n" + "" == Join(lines) + "\n";
    }
  }

  /** The lines of a text that starts with clean lines: those lines, and what normalizing leaves of the rest. */
  lemma CleanSplit(lines: seq<string>, rest: string)
    requires lines != [] && CleanLines(lines)
    ensures SplitLines(Normalize(Join(lines) + "\n" + rest)) == lines + SplitLines(Normalize(rest))
  {
    JoinNoCrlf(lines);
    NormalizeHead(Join(lines) + "\n", rest);
    CleanSingle(lines);
    SplitJoin(lines, Normalize(rest));
  }

  /** No line among these closes the front matter. */
  predicate NoEnd(lines: seq<string>) { lines == [] || (lines[0] != "---" && NoEnd(lines[1..])) }

  lemma {:induction false} NoEndConcat(a: seq<string>, b: seq<string>)
    requires NoEnd(a) && NoEnd(b)
    ensures NoEnd(a + b)
  {
    if a == [] {
      assert a + b == b;
    } else {
      assert (a + b)[1..] == a[1..] + b;
      NoEndConcat(a[1..], b);
    }
  }

  lemma {:induction false} EndAfter(front: seq<string>, rest: seq<string>)
    requires NoEnd(front)
    ensures FindEnd(front + rest) == |front| + FindEnd(rest)
  {
    if front == [] {
      assert front + rest == rest;
    } else {
      assert (front + rest)[1..] == front[1..] + rest;
      EndAfter(front[1..], rest);
    }
  }

  /** The body the parser sees for a printed content. */
  function BodySeen(content: string): string {
    var n := Normalize(content + "\n");
    if n == "" then "" else n[..|n| - 1]
  }

  lemma {:induction false} NormalizeEnds(s: string)
    ensures var n := Normalize(s + "\n"); n != "" && n[|n| - 1] == '\n'
    decreases |s|
  {
    var t := s + "\n";
    if s != "" {
      assert t[1..] == s[1..] + "\n";
      NormalizeEnds(s[1..]);
      if |s| >= 2 {
        assert t[2..] == s[2..] + "\n";
        NormalizeEnds(s[2..]);
      }
    }
  }

  /** The body comes back exactly when neither it nor its junction with the final line break has a CRLF. */
  lemma BodyExact(content: string)
    ensures BodySeen(content) == content <==> NoCrlf(content + "\n")
  {
    NormalizeExact(content + "\n");
    NormalizeEnds(content);
    var n := Normalize(content + "\n");
    assert n == n[..|n| - 1] + "\n";
    if BodySeen(content) == content { assert n == content + "\n"; }
    assert NoCrlf(content + "\n") ==> n[..|n| - 1] == content;
  }

  lemma BodyText(content: string)
    ensures var n := Normalize("\n" + content + "\n");
      StripBreaks(Join(SplitLines(n))) == BodySeen(content)
      && SplitLines(n)[0] == ""
  {
    var n := Normalize(content + "\n");
    NormalizeEnds(content);
    assert "\n" + content + "\n" == "\n" + (content + "\n");
    NormalizeHead("\n", content + "\n");
    JoinSplit("\n" + n);
  }

  lemma Divide(lines: seq<string>, front: seq<string>, body: seq<string>)
    requires lines == ["---"] + (front + (["---"] + body)) && NoEnd(front)
    ensures lines[0] == "---" && FindEnd(lines[1..]) == |front| < |lines| - 1
    ensures lines[1..][..|front|] == front && lines[1..][|front| + 1..] == body
  {
    assert lines[1..] == front + (["---"] + body);
    EndAfter(front, ["---"] + body);
  }

  lemma PrintedLines(front: seq<string>, content: string)
    requires CleanLines(front)
    ensures SplitLines(Normalize(Join(["---"] + front + ["---"]) + "\n\n" + content + "\n"))
         == ["---"] + (front + (["---"] + SplitLines(Normalize("\n" + content + "\n"))))
  {
    var lines := ["---"] + front + ["---"];
    var rest := "\n" + content + "\n";
    assert Join(lines) + "\n\n" + content + "\n" == Join(lines) + "\n" + rest;
    DashesClean(front);
    CleanSplit(lines, rest);
    Around(front, SplitLines(Normalize(rest)));
  }

  lemma Around(front: seq<string>, body: seq<string>)
    ensures ["---"] + front + ["---"] + body == ["---"] + (front + (["---"] + body))
  {
  }

  /** A document with a clean front matter falls apart where it was put together. */
  lemma SplitPrinted(front: seq<string>, content: string)
    requires CleanLines(front) && NoEnd(front)
    ensures Split(Join(["---"] + front + ["---"]) + "\n\n" + content + "\n") == Some((front, BodySeen(content)))
  {
    var body := SplitLines(Normalize("\n" + content + "\n"));
    PrintedLines(front, content);
    Divide(["---"] + (front + (["---"] + body)), front, body);
    BodyText(content);
  }

  lemma DashesClean(front: seq<string>)
    requires CleanLines(front)
    ensures CleanLines(["---"] + front + ["---"])
  {
    assert Clean("---");
    assert ["---"][1..] == [];
    CleanConcat(["---"], front);
    CleanConcat(["---"] + front, ["---"]);
  }
}
