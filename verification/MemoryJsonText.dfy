/** The literals of JSON (RFC 8259) that the parser takes: numbers, escapes and white space. */
module MemoryJsonText {
  import opened Options
  import opened MemoryText
  import opened MemoryJson

  ghost predicate Figures(s: string) { s != "" && forall i :: 0 <= i < |s| ==> s[i] in "0123456789" }

  /** Section 6 of RFC 8259: a sign, a whole number without leading zeros, a fraction, an exponent. */
  ghost predicate Numeric(sign: string, whole: string, fraction: string, exponent: string) {
    && sign in {"", "-"}
    && Figures(whole) && (whole[0] == '0' ==> whole == "0")
    && (fraction == "" || (fraction[0] == '.' && Figures(fraction[1..])))
    && (exponent == "" || Scaled(exponent))
  }

  ghost predicate Scaled(exponent: string) {
    exponent != "" && exponent[0] in "eE" && (Figures(exponent[1..]) || Signed(exponent[1..]))
  }

  ghost predicate Signed(s: string) { s != "" && s[0] in "+-" && Figures(s[1..]) }

  predicate Ends(rest: string) { rest == "" || rest[0] !in "0123456789.eE" }

  lemma {:induction false} DigitsSkipped(run: string, rest: string)
    requires run == "" || Figures(run)
    requires rest == "" || rest[0] !in "0123456789"
    ensures SkipDigits(run + rest) == rest
    decreases |run|
  {
    if run == "" {
      assert run + rest == rest;
    } else {
      assert (run + rest)[0] == run[0] && (run + rest)[1..] == run[1..] + rest;
      DigitsSkipped(run[1..], rest);
    }
  }

  lemma {:induction false} SkippedDigits(s: string) returns (run: string)
    ensures s == run + SkipDigits(s) && (run == "" || Figures(run))
  {
    run := "";
    if s != "" && SkipDigits(s) != s {
      run := SkippedDigits(s[1..]);
      run := [s[0]] + run;
    }
  }

  lemma SomeFigures(run: string, rest: string)
    requires Figures(run) && (rest == "" || rest[0] !in "0123456789")
    ensures SomeDigits(run + rest) == Some(rest)
  {
    DigitsSkipped(run, rest);
  }

  lemma WholeRead(whole: string, rest: string)
    requires Figures(whole) && (whole[0] == '0' ==> whole == "0") && (rest == "" || rest[0] !in "0123456789")
    ensures Whole(whole + rest) == Some(rest)
  {
    SomeFigures(whole, rest);
    assert (whole + rest)[0] == whole[0];
    if whole == "0" { assert (whole + rest)[1..] == rest; }
  }

  lemma FractionRead(fraction: string, rest: string)
    requires fraction == "" || (fraction[0] == '.' && Figures(fraction[1..]))
    requires rest == "" || rest[0] !in "0123456789."
    ensures Fraction(fraction + rest) == Some(rest)
  {
    if fraction == "" {
      assert fraction + rest == rest;
    } else {
      assert (fraction + rest)[0] == '.' && (fraction + rest)[1..] == fraction[1..] + rest;
      SomeFigures(fraction[1..], rest);
    }
  }

  lemma ExponentRead(exponent: string, rest: string)
    requires exponent == "" || Scaled(exponent)
    requires Ends(rest)
    ensures Exponent(exponent + rest) == Some(rest)
  {
    if exponent == "" {
      assert exponent + rest == rest;
    } else {
      var t := exponent[1..];
      assert (exponent + rest)[0] == exponent[0] && (exponent + rest)[1..] == t + rest;
      assert (t + rest)[0] == t[0] && (t + rest)[1..] == t[1..] + rest;
      if Figures(t) { SomeFigures(t, rest); } else { SomeFigures(t[1..], rest); }
    }
  }

  lemma AfterWhole(whole: string, fraction: string, exponent: string, rest: string)
    requires Numeric("", whole, fraction, exponent) && Ends(rest)
    ensures Whole(whole + (fraction + (exponent + rest))) == Some(fraction + (exponent + rest))
    ensures Fraction(fraction + (exponent + rest)) == Some(exponent + rest)
    ensures Exponent(exponent + rest) == Some(rest)
  {
    assert exponent != "" ==> exponent[0] == 'e' || exponent[0] == 'E';
    WholeRead(whole, fraction + (exponent + rest));
    FractionRead(fraction, exponent + rest);
    ExponentRead(exponent, rest);
  }

  /** A number, and what comes after it. */
  lemma NumberReads(sign: string, whole: string, fraction: string, exponent: string, rest: string)
    requires Numeric(sign, whole, fraction, exponent) && Ends(rest)
    ensures AfterNumber(sign + (whole + (fraction + (exponent + rest)))) == Some(rest)
  {
    var t := whole + (fraction + (exponent + rest));
    AfterWhole(whole, fraction, exponent, rest);
    assert t[0] == whole[0] && whole[0] != '-';
    if sign == "" { assert sign + t == t; } else { assert (sign + t)[1..] == t; }
  }

  lemma SomeRead(s: string) returns (run: string)
    requires SomeDigits(s).Some?
    ensures Figures(run) && s == run + SomeDigits(s).value
  {
    run := SkippedDigits(s);
  }

  lemma ExponentFound(s: string) returns (exponent: string)
    requires Exponent(s).Some?
    ensures (exponent == "" || Scaled(exponent)) && s == exponent + Exponent(s).value
  {
    exponent := "";
    if s != "" && s[0] in "eE" {
      var t := s[1..];
      if t != "" && t[0] in "+-" {
        var run := SomeRead(t[1..]);
        exponent := [s[0]] + ([t[0]] + run);
        assert exponent[1..] == [t[0]] + run && exponent[1..][1..] == run;
        assert s == [s[0]] + ([t[0]] + t[1..]);
      } else {
        var run := SomeRead(t);
        exponent := [s[0]] + run;
        assert exponent[1..] == run && s == [s[0]] + t;
      }
    }
  }

  lemma FractionFound(s: string) returns (fraction: string)
    requires Fraction(s).Some?
    ensures (fraction == "" || (fraction[0] == '.' && Figures(fraction[1..]))) && s == fraction + Fraction(s).value
  {
    fraction := "";
    if s != "" && s[0] == '.' {
      var run := SomeRead(s[1..]);
      fraction := "." + run;
      assert fraction[1..] == run && s == "." + s[1..];
    }
  }

  lemma WholeFound(s: string) returns (whole: string)
    requires Whole(s).Some?
    ensures Figures(whole) && (whole[0] == '0' ==> whole == "0") && s == whole + Whole(s).value
  {
    if s[0] == '0' {
      whole := "0";
    } else {
      whole := SomeRead(s);
      assert s[0] == whole[0];
    }
  }

  /** Whatever is taken as a number is one. */
  lemma NumberFound(s: string) returns (sign: string, whole: string, fraction: string, exponent: string)
    requires AfterNumber(s).Some?
    ensures Numeric(sign, whole, fraction, exponent)
    ensures s == sign + (whole + (fraction + (exponent + AfterNumber(s).value)))
  {
    sign := if s != "" && s[0] == '-' then "-" else "";
    var t := s[|sign|..];
    assert s == sign + t;
    whole := WholeFound(t);
    fraction := FractionFound(Whole(t).value);
    exponent := ExponentFound(Fraction(Whole(t).value).value);
  }

  // ------------------------------------------------- white space and escapes

  /** Section 2: white space is space, tab, line feed and carriage return. */
  lemma SpacesJson(c: char)
    ensures JsonSpace(c) <==> c as int in {0x20, 0x09, 0x0a, 0x0d}
  {
  }

  /** White space is skipped, and nothing else. */
  lemma {:induction false} SpaceSkipped(pad: string, s: string)
    requires (forall i :: 0 <= i < |pad| ==> JsonSpace(pad[i])) && (s == "" || !JsonSpace(s[0]))
    ensures SkipSpace(pad + s) == s
  {
    if pad == "" {
      assert pad + s == s;
    } else {
      assert (pad + s)[0] == pad[0] && (pad + s)[1..] == pad[1..] + s;
      SpaceSkipped(pad[1..], s);
    }
  }

  /** Section 7: hexadecimal digits in either case. */
  lemma HexMeans(c: char, v: nat)
    ensures HexValue(c) == Some(v) <==> v < 16 && (c == "0123456789abcdef"[v] || c == "0123456789ABCDEF"[v])
  {
  }

  /** Section 7: the escapes of one letter. */
  lemma ShortMeans(c: char, x: char)
    ensures ShortEscape(c) == Some(x) <==>
      (c, x as int) in {('"', 0x22), ('\\', 0x5c), ('/', 0x2f), ('b', 8), ('f', 0x0c), ('n', 0x0a), ('r', 0x0d), ('t', 9)}
  {
  }

  /** Section 7: any other scalar value of the Basic Multilingual Plane by its four digits. */
  lemma UnitReads(a: nat, b: nat, c: nat, d: nat, rest: string)
    requires a < 16 && b < 16 && c < 16 && d < 16
    requires var n := ((a * 16 + b) * 16 + c) * 16 + d; n < 0xd800 || 0xe000 <= n
    ensures var n := ((a * 16 + b) * 16 + c) * 16 + d;
      UnescapeChar("\\u" + [Hex(a), Hex(b), Hex(c), Hex(d)] + rest) == Some((n as char, 6))
  {
    var s := "\\u" + [Hex(a), Hex(b), Hex(c), Hex(d)] + rest;
    assert s[2..6] == [Hex(a), Hex(b), Hex(c), Hex(d)];
    HexInverts(a);
    HexInverts(b);
    HexInverts(c);
    HexInverts(d);
  }

  /** Section 7: any character but a quotation mark, a backslash and the control characters stands for itself. */
  lemma PlainChar(c: char, rest: string)
    ensures c == '"' || c as int <= 0x1f ==> UnescapeChar([c] + rest) == None
    ensures c != '"' && c != '\\' && c as int > 0x1f ==> UnescapeChar([c] + rest) == Some((c, 1))
  {
    assert ([c] + rest)[0] == c;
  }
}
