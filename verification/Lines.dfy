/** Texts as lines: splitting, joining, and CRLF. */
module Lines {

  // ------------------------------------------------------------------ lines

  predicate SingleLine(s: string) { '\n' !in s }

  /** `split("\n")` */
  function SplitLines(s: string): (lines: seq<string>)
    ensures lines != []
  {
    if s == "" then [""]
    else
      var lines := SplitLines(s[1..]);
      if s[0] == '\n' then [""] + lines else [[s[0]] + lines[0]] + lines[1..]
  }

  /** `join("\n")` */
  function Join(lines: seq<string>): string {
    if lines == [] then "" else if |lines| == 1 then lines[0] else lines[0] + "\n" + Join(lines[1..])
  }

  function FirstLine(s: string): string {
    if s == "" || s[0] == '\n' then "" else [s[0]] + FirstLine(s[1..])
  }

  lemma {:induction false} SplitFirst(s: string)
    ensures SplitLines(s)[0] == FirstLine(s)
  {
    if s != "" { SplitFirst(s[1..]); }
  }

  /** A line break splits a text into the lines before it and the lines after it. */
  lemma {:induction false} SplitAtBreak(line: string, rest: string)
    requires SingleLine(line)
    ensures SplitLines(line + "\n" + rest) == [line] + SplitLines(rest)
  {
    if line == "" {
      assert line + "\n" + rest == "\n" + rest;
      assert ("\n" + rest)[1..] == rest;
    } else {
      var s := line + "\n" + rest;
      assert s[0] == line[0] && s[1..] == line[1..] + "\n" + rest;
      assert line[0] in line;
      SplitAtBreak(line[1..], rest);
      assert [line[0]] + line[1..] == line;
    }
  }

  /** A head without line breaks stays in front of the first line. */
  lemma {:induction false} SplitHead(head: string, rest: string)
    requires SingleLine(head)
    ensures SplitLines(head + rest) == [head + FirstLine(rest)] + SplitLines(rest)[1..]
  {
    if head == "" {
      assert head + rest == rest;
      SplitFirst(rest);
      assert head + FirstLine(rest) == FirstLine(rest);
    } else {
      var s := head + rest;
      assert s[0] == head[0] && s[1..] == head[1..] + rest;
      assert head[0] in head;
      SplitHead(head[1..], rest);
      assert [head[0]] + (head[1..] + FirstLine(rest)) == head + FirstLine(rest);
    }
  }

  lemma JoinHead(lines: seq<string>, rest: string)
    requires |lines| > 1
    ensures Join(lines) + "\n" + rest == lines[0] + "\n" + (Join(lines[1..]) + "\n" + rest)
  {
  }

  lemma HeadTail<T>(s: seq<T>, t: seq<T>)
    requires s != []
    ensures [s[0]] + (s[1..] + t) == s + t
  {
    assert [s[0]] + s[1..] == s;
  }

  predicate SingleLines(lines: seq<string>) {
    lines == [] || (SingleLine(lines[0]) && SingleLines(lines[1..]))
  }

  /** Splitting undoes joining, and the text after the last joined line is split on its own. */
  lemma {:induction false} SplitJoin(lines: seq<string>, rest: string)
    requires lines != [] && SingleLines(lines)
    ensures SplitLines(Join(lines) + "\n" + rest) == lines + SplitLines(rest)
  {
    if |lines| == 1 {
      SplitAtBreak(lines[0], rest);
    } else {
      SplitJoin(lines[1..], rest);
      JoinHead(lines, rest);
      SplitAtBreak(lines[0], Join(lines[1..]) + "\n" + rest);
      HeadTail(lines, SplitLines(rest));
    }
  }

  lemma {:induction false} JoinSplit(s: string)
    ensures Join(SplitLines(s)) == s
  {
    if s != "" {
      JoinSplit(s[1..]);
      var lines := SplitLines(s[1..]);
      if s[0] == '\n' {
        assert ([""] + lines)[1..] == lines;
        assert s == "\n" + s[1..];
      } else {
        var all := [[s[0]] + lines[0]] + lines[1..];
        assert all[1..] == lines[1..];
        assert s == [s[0]] + s[1..];
        if |lines| > 1 {
          assert all[0] + "\n" + Join(all[1..]) == [s[0]] + (lines[0] + "\n" + Join(lines[1..]));
        }
      }
    }
  }

  // ------------------------------------------------------------------- CRLF

  /** `replace(/\r\n/g, "\n")` */
  function Normalize(s: string): string {
    if s == "" then ""
    else if |s| >= 2 && s[0] == '\r' && s[1] == '\n' then "\n" + Normalize(s[2..])
    else [s[0]] + Normalize(s[1..])
  }

  predicate NoCrlf(s: string) { forall i :: 0 <= i < |s| - 1 ==> !(s[i] == '\r' && s[i + 1] == '\n') }

  /** Normalizing changes a text exactly when it has a CRLF. */
  lemma {:induction false} NormalizeExact(s: string)
    ensures |Normalize(s)| <= |s|
    ensures NoCrlf(s) ==> Normalize(s) == s
    ensures !NoCrlf(s) ==> |Normalize(s)| < |s|
  {
    if s != "" {
      if |s| >= 2 && s[0] == '\r' && s[1] == '\n' {
        NormalizeExact(s[2..]);
      } else {
        NormalizeExact(s[1..]);
        if NoCrlf(s[1..]) {
          forall i | 0 <= i < |s| - 1 ensures !(s[i] == '\r' && s[i + 1] == '\n') {
            if i > 0 { assert s[1..][i - 1] == s[i] && s[1..][i] == s[i + 1]; }
          }
        } else {
          var i :| 0 <= i < |s[1..]| - 1 && s[1..][i] == '\r' && s[1..][i + 1] == '\n';
          assert s[i + 1] == '\r' && s[i + 2] == '\n';
        }
      }
    }
  }

  /** A head that has no CRLF and does not end in CR is normalized on its own. */
  lemma {:induction false} NormalizeHead(head: string, rest: string)
    requires NoCrlf(head) && (head == "" || head[|head| - 1] != '\r')
    ensures Normalize(head + rest) == head + Normalize(rest)
  {
    if head == "" {
      assert head + rest == rest;
    } else {
      var s := head + rest;
      assert s[1..] == head[1..] + rest;
      if |head| >= 2 {
        assert s[1] == head[1];
        forall i | 0 <= i < |head[1..]| - 1 ensures !(head[1..][i] == '\r' && head[1..][i + 1] == '\n') {
          assert head[i + 1] == head[1..][i] && head[i + 2] == head[1..][i + 1];
        }
      }
      NormalizeHead(head[1..], rest);
      assert [head[0]] + (head[1..] + Normalize(rest)) == head + Normalize(rest);
    }
  }

  /** What the parser sees of a value printed before a line break: all of it, or strictly less. */
  lemma {:induction false} SeenOf(v: string, rest: string)
    ensures var x := FirstLine(Normalize(v + "\n" + rest));
      (x == v || |x| < |v|) && (x == v <==> SingleLine(v) && (v == "" || v[|v| - 1] != '\r'))
  {
    var s := v + "\n" + rest;
    if v == "" {
      assert s[0] == '\n';
    } else if v[0] == '\n' {
      assert s[0] == '\n';
      assert v[0] in v;
    } else if |s| >= 2 && s[0] == '\r' && s[1] == '\n' {
      if |v| > 1 { assert v[1] == '\n'; assert v[1] in v; }
    } else {
      assert s[1..] == v[1..] + "\n" + rest;
      SeenOf(v[1..], rest);
      var x := FirstLine(Normalize(s[1..]));
      assert Normalize(s) == [s[0]] + Normalize(s[1..]);
      assert Normalize(s)[1..] == Normalize(s[1..]);
      assert FirstLine(Normalize(s)) == [v[0]] + x;
      assert v == [v[0]] + v[1..];
      assert SingleLine(v) <==> SingleLine(v[1..]);
      if |v| == 1 { assert v[0] != '\r'; }
    }
  }
}
