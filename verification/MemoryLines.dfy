/** How the lines the printer writes look to the parser. */
module MemoryLines {
  import opened Options
  import opened MemoryText
  import opened MemoryFormat

  /** A key that can be printed bare. */
  predicate Word(key: string) {
    key != "" && key[0] != '-' && forall i :: 0 <= i < |key| ==> !IsSpace(key[i]) && key[i] != ':'
  }

  lemma {:induction false} TrimEndHead(head: string, z: string)
    requires head != "" && !IsSpace(head[|head| - 1])
    ensures TrimEnd(head + z) == head + TrimEnd(z)
  {
    if z == "" {
      assert head + z == head;
    } else {
      var s := head + z;
      assert s[|s| - 1] == z[|z| - 1] && s[..|s| - 1] == head + z[..|z| - 1];
      TrimEndHead(head, z[..|z| - 1]);
    }
  }

  lemma {:induction false} TrimEndCons(c: char, z: string)
    ensures TrimEnd([c] + z) == if TrimEnd(z) == "" && IsSpace(c) then "" else [c] + TrimEnd(z)
  {
    var s := [c] + z;
    if z == "" {
      assert s == [c] && s[..0] == "";
      assert IsSpace(c) ==> TrimEnd(s) == TrimEnd(s[..0]);
    } else {
      assert s[|s| - 1] == z[|z| - 1] && s[..|s| - 1] == [c] + z[..|z| - 1];
      TrimEndCons(c, z[..|z| - 1]);
    }
  }

  /** The two ends can be trimmed in either order. */
  lemma {:induction false} TrimCommutes(z: string)
    ensures Trim(TrimEnd(z)) == Trim(z)
  {
    if z != "" {
      assert z == [z[0]] + z[1..];
      TrimEndCons(z[0], z[1..]);
      TrimTrimmed(TrimEnd(z));
      TrimShrinks(z);
      if IsSpace(z[0]) {
        TrimCommutes(z[1..]);
        if TrimEnd(z) != "" {
          assert TrimEnd(z)[1..] == TrimEnd(z[1..]);
        } else {
          assert TrimEnd(z[1..]) == "";
        }
      } else {
        assert TrimEnd(z)[0] == z[0];
        EndTrimmed(z);
      }
    }
  }

  lemma EndTrimmed(z: string)
    ensures TrimEnd(TrimEnd(z)) == TrimEnd(z)
  {
    TrimShrinks(z);
  }

  /** A scalar is read without the white space around it. */
  lemma ScalarTrims(x: string)
    ensures ParseScalar(TrimEnd(" " + x)) == ParseScalar(x)
  {
    TrimCommutes(" " + x);
    assert (" " + x)[1..] == x;
  }

  lemma {:induction false} ColonAt(key: string, z: string)
    requires ':' !in key
    ensures Colon(key + ":" + z) == |key|
  {
    var s := key + ":" + z;
    if key != "" {
      assert key[0] in key;
      assert s[1..] == key[1..] + ":" + z;
      ColonAt(key[1..], z);
    }
  }

  lemma WordFacts(key: string)
    requires Word(key)
    ensures ':' !in key && Trim(key) == key
  {
    TrimTrimmed(key);
  }

  lemma EntryParses(key: string, z: string)
    requires Word(key)
    ensures ParseEntry(key + ":" + z) ==
            match ParseScalar(z) case None => None case Some(scalar) => Some((key, scalar))
  {
    WordFacts(key);
    ColonAt(key, z);
    var s := key + ":" + z;
    assert s[..|key|] == key && s[|key| + 1..] == z;
  }

  /** A nested line: what the parser makes of `key: x` behind some white space. */
  lemma ChildParses(pad: string, key: string, x: string)
    requires Spaces(pad) && pad != "" && Word(key)
    ensures var line := pad + key + ": " + x;
      && !Blank(line) && Indented(line) && !Dashed(Trim(line)) && !Dashed(TrimStart(line))
      && ParseEntry(Trim(line)) == match ParseScalar(x) case None => None case Some(scalar) => Some((key, scalar))
  {
    var line := pad + key + ": " + x;
    var text := key + ":" + (" " + x);
    assert line == pad + text;
    TrimStartSpaces(pad, text);
    TrimEndHead(key + ":", " " + x);
    assert key + ":" + TrimEnd(" " + x) == Trim(line);
    EntryParses(key, TrimEnd(" " + x));
    ScalarTrims(x);
  }

  lemma PaddedTrim(pad: string, text: string)
    requires Spaces(pad) && pad != "" && text != "" && Trimmed(text)
    ensures Trim(pad + text) == text && TrimStart(pad + text) == text && Indented(pad + text)
  {
    TrimStartSpaces(pad, text);
  }

  lemma EntryValue(key: string, v: string)
    requires Word(key)
    ensures ParseEntry(key + ": " + v) == match ParseScalar(v) case None => None case Some(scalar) => Some((key, scalar))
  {
    assert key + ": " + v == key + ":" + (" " + v);
    EntryParses(key, " " + v);
    SpaceScalar(v);
  }

  lemma SpaceScalar(v: string)
    ensures ParseScalar(" " + v) == ParseScalar(v)
  {
    assert (" " + v)[1..] == v;
    assert Trim(" " + v) == Trim(v);
  }

  /** The first line of a list item. */
  lemma DashParses(pad: string, entry: string)
    requires Spaces(pad) && pad != "" && entry != "" && Trimmed(entry)
    ensures var line := pad + "- " + entry;
      Child(line) && Dashed(Trim(line)) && Dashed(TrimStart(line)) && Trim(line)[2..] == entry
  {
    var text := "- " + entry;
    assert pad + "- " + entry == pad + text;
    PaddedTrim(pad, text);
    assert text[2..] == entry;
  }

  lemma KeyParses(key: string, z: string, fields: map<string, Value>)
    requires Word(key) && key !in fields
    ensures var line := key + ":" + z;
      !Blank(line) && !Indented(line) && ParseKey(line, fields) == Some((key, Trim(z)))
  {
    var line := key + ":" + z;
    WordFacts(key);
    ColonAt(key, z);
    assert line[..|key|] == key && line[|key| + 1..] == z;
    TrimEndHead(key + ":", z);
  }

  /** A top-level `key: v`. */
  lemma ScalarLine(key: string, v: string, rest: seq<string>, fields: map<string, Value>)
    requires Word(key) && key !in fields && v != "" && Trimmed(v)
    ensures ParseLines([key + ": " + v] + rest, fields) ==
            match ParseScalar(v)
            case None => None
            case Some(scalar) => ParseLines(rest, fields[key := ToValue(scalar)])
  {
    var line := key + ": " + v;
    assert line == key + ":" + (" " + v);
    KeyParses(key, " " + v, fields);
    TrimPadded(" ", v);
    var lines := [line] + rest;
    assert lines[0] == line && lines[1..] == rest;
  }

  predicate Child(line: string) { !Blank(line) && Indented(line) }

  predicate Children(lines: seq<string>) { forall i :: 0 <= i < |lines| ==> Child(lines[i]) }

  predicate Outside(rest: seq<string>) { rest == [] || (!Blank(rest[0]) && !Indented(rest[0])) }

  /** The lines nested under a key: at least these, then whatever else belongs to them. */
  lemma {:induction false} BlockPrefix(children: seq<string>, rest: seq<string>)
    requires Children(children)
    ensures Block(children + rest).0 == children + Block(rest).0 && Block(children + rest).1 == Block(rest).1
  {
    if children == [] {
      assert children + rest == rest;
    } else {
      assert (children + rest)[1..] == children[1..] + rest;
      BlockPrefix(children[1..], rest);
      assert [children[0]] + (children[1..] + Block(rest).0) == children + Block(rest).0;
    }
  }

  lemma BareKey(key: string, fields: map<string, Value>)
    requires Word(key) && key !in fields
    ensures !Blank(key + ":") && !Indented(key + ":") && ParseKey(key + ":", fields) == Some((key, ""))
  {
    KeyParses(key, "", fields);
    assert key + ":" + "" == key + ":";
  }

  /** A key alone on its line takes the block below it as its value. */
  lemma BlockLine(key: string, below: seq<string>, fields: map<string, Value>)
    requires Word(key) && key !in fields
    ensures ParseLines([key + ":"] + below, fields) ==
            match ParseChildren(Block(below).0)
            case None => None
            case Some(value) => ParseLines(Block(below).1, fields[key := value])
  {
    BareKey(key, fields);
    var lines := [key + ":"] + below;
    assert lines[0] == key + ":" && lines[1..] == below;
  }

  lemma ClosedBlock(key: string, children: seq<string>, rest: seq<string>, fields: map<string, Value>)
    requires Word(key) && key !in fields && Outside(rest) && Children(children)
    ensures ParseLines([key + ":"] + (children + rest), fields) ==
            match ParseChildren(children)
            case None => None
            case Some(value) => ParseLines(rest, fields[key := value])
  {
    BlockLine(key, children + rest, fields);
    BlockPrefix(children, rest);
    BlockNone(rest);
    assert children + [] == children;
  }

  lemma BlockNone(rest: seq<string>)
    requires Outside(rest)
    ensures Block(rest) == ([], rest)
  {
  }
}
