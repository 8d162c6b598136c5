/** The verdict on a rendered formula, and when generation succeeds.

    The verifier works on the text without its comment lines. Four things are shown of that text:

    1. the wheel list found in it is the declared one, name by name (`NamesReadBack`, `WheelsFound`,
       `WheelsInCode`);

    2. the install method found in it is the rendered one, its nested loop included, although the
       extractor only counts openers and `end`s (`InstallFound`, `InstallInCode`), and that method
       follows the approved route (`BodyApproved`);

    3. its lines are the pieces of the header that are no comments, followed by the other rendered lines
       (`CodeLinesAre`); no such piece can open a wheel list (`SkipQuotedLines`), but one may read as the
       start of an install method;

    4. the automatic route is called exactly when it is named in the list.

    The wheel list is the one place where a manifest chooses how a line starts. Every other line of the
    rendered text starts in a way that decides what the verifier makes of it, whatever values follow
    (`BeforeInstallFacts`); for the lines of the list that is decided by the names (`NameLineFacts`).

    With the parser's round trip these give the verdict on a rendered manifest (`VerdictOnRender`),
    and with it the generator's own outcome (`GenerateFormula`). */
module FormulaVerdict {
  import opened Options
  import opened Ordering
  import opened PyText
  import opened Formula
  import opened FormulaVerify
  import opened FormulaGenerate
  import opened FormulaParseProofs
  import opened FormulaVerifyProofs

  // ----- the wheel list reads back -----

  lemma JoinMore(x: string, rest: seq<string>)
    requires rest != []
    ensures JoinLines([x] + rest) == x + ("\n" + JoinLines(rest))
  {
    assert ([x] + rest)[1..] == rest;
    assert x + "\n" + JoinLines(rest) == x + ("\n" + JoinLines(rest));
  }

  lemma NotClosed(u: string)
    requires SkipWs(u) == "" || SkipWs(u)[0] != ']'
    ensures !ClosesList(u)
  {
    hide SkipWs, StartsWith;
    assert "].freeze"[0] == ']';
    NotPrefix(SkipWs(u), "].freeze");
  }

  lemma NotPrefix(t: string, w: string)
    requires w != "" && (t == "" || t[0] != w[0])
    ensures !StartsWith(t, w)
  {
    if |w| <= |t| { assert t[..|w|][0] == t[0]; }
  }

  /** One character that closes nothing is simply part of the region. */
  lemma RegionOne(c: char, u: string)
    requires SkipWs([c] + u) == "" || SkipWs([c] + u)[0] != ']'
    ensures Region([c] + u) == if Region(u).Some? then Some([c] + Region(u).value) else None
  {
    hide SkipWs, ClosesList;
    NotClosed([c] + u);
    assert ([c] + u)[1..] == u;
  }

  predicate NameChars(n: string) { forall i :: 0 <= i < |n| ==> !IsSpace(n[i]) && n[i] != ']' }

  lemma {:induction false} RegionName(n: string, u: string)
    requires NameChars(n) && Region(u).Some?
    ensures Region(n + u) == Some(n + Region(u).value)
    decreases |n|
  {
    if n == "" {
      Nothing(u);
      Nothing(Region(u).value);
    } else {
      NameCharsSplit(n);
      hide *;
      RegionName(n[1..], u);
      NoSpaceStays(n[0], n[1..] + u);
      RegionOne(n[0], n[1..] + u);
      Split(n, u);
      Split(n, Region(u).value);
    }
  }

  lemma Nothing(u: string)
    ensures "" + u == u
  {
  }

  lemma Split(n: string, u: string)
    requires n != ""
    ensures n + u == [n[0]] + (n[1..] + u)
  {
  }

  lemma NameCharsSplit(n: string)
    requires NameChars(n) && n != ""
    ensures NameChars(n[1..]) && !IsSpace(n[0]) && n[0] != ']'
  {
  }

  lemma NoSpaceStays(c: char, u: string)
    requires !IsSpace(c)
    ensures SkipWs([c] + u) == [c] + u && ([c] + u)[0] == c
  {
  }

  lemma {:induction false} RegionSpace(w: string, u: string)
    requires AllSpace(w) && u != "" && !IsSpace(u[0]) && u[0] != ']' && Region(u).Some?
    ensures Region(w + u) == Some(w + Region(u).value)
    decreases |w|
  {
    if w == "" {
      Nothing(u);
      Nothing(Region(u).value);
    } else {
      AllSpaceSplit(w);
      hide *;
      RegionSpace(w[1..], u);
      SkipWsOver(w, u);
      Split(w, u);
      RegionOne(w[0], w[1..] + u);
      Split(w, Region(u).value);
    }
  }

  lemma AllSpaceSplit(w: string)
    requires AllSpace(w) && w != ""
    ensures AllSpace(w[1..])
  {
  }

  lemma WordsSkip(w: string, s: string)
    requires AllSpace(w)
    ensures Words(w + s) == Words(s)
  {
    hide AllSpace, SkipWs;
    SkipWsThrough(w, s);
  }

  lemma WordsNothing()
    ensures Words("") == []
  {
  }

  lemma Closing(more: seq<string>)
    ensures SkipWs(JoinLines(["  ].freeze", ""] + more)) == "].freeze" + ("\n" + JoinLines([""] + more))
    ensures ClosesList("\n" + JoinLines(["  ].freeze", ""] + more))
    ensures Region(SkipWs(JoinLines(["  ].freeze", ""] + more))) == Some("")
  {
    hide *;
    var rest := "\n" + JoinLines([""] + more);
    assert ["  ].freeze", ""] + more == ["  ].freeze"] + ([""] + more);
    JoinMore("  ].freeze", [""] + more);
    var t := JoinLines(["  ].freeze", ""] + more);
    assert t == "  " + ("].freeze" + rest);
    TwoSpaces();
    IndentFacts("  ");
    CloseWord();
    AfterOver("  ", "].freeze", rest);
    WordFirst("].freeze", rest);
    SkipWsOver("  ", "].freeze" + rest);
    NewlineSpace();
    SkipWsThrough("\n", t);
    NoSpaceSkip("].freeze" + rest);
    ClosesWith("\n" + t, rest);
    ClosesWith("].freeze" + rest, rest);
  }

  lemma CloseWord()
    ensures "].freeze" != "" && !IsSpace("].freeze"[0]) && |"].freeze"| == 8
  {
  }

  lemma WordFirst(word: string, rest: string)
    requires word != ""
    ensures word + rest != "" && (word + rest)[0] == word[0] && StartsWith(word + rest, word)
      && (word + rest)[|word|..] == rest
  {
  }

  lemma NewlineSpace()
    ensures AllSpace("\n") && AllSpace("\n" + "    ")
  {
  }

  lemma NoSpaceSkip(s: string)
    requires s != "" && !IsSpace(s[0])
    ensures SkipWs(s) == s
  {
  }

  lemma ClosesWith(u: string, rest: string)
    requires SkipWs(u) == "].freeze" + rest && rest != "" && rest[0] == '\n'
    ensures ClosesList(u) && Region(u) == Some("")
  {
    hide SkipWs;
    WordFirst("].freeze", rest);
  }

  lemma WheelLinesNext(names: seq<string>, tail: seq<string>)
    requires names != []
    ensures WheelLines(names) + tail == ["    " + names[0]] + (WheelLines(names[1..]) + tail)
  {
  }

  lemma NoWheelLines(tail: seq<string>)
    ensures WheelLines([]) + tail == tail
  {
  }

  lemma NamesAreNameChars(n: string)
    requires ResourceName(n)
    ensures NameChars(n) && n != "" && !IsSpace(n[0]) && n[0] != ']' && IsWord(n)
  {
    NameIsPlain(n);
  }

  /** Between the brackets stand exactly the listed names. */
  lemma {:induction false} NamesReadBack(names: seq<string>, more: seq<string>)
    requires forall n :: n in names ==> ResourceName(n)
    ensures var t := JoinLines(WheelLines(names) + (["  ].freeze", ""] + more));
      && Region(SkipWs(t)).Some? && Words(Region(SkipWs(t)).value) == names
      && (names != [] ==> SkipWs(t) != "" && !IsSpace(SkipWs(t)[0]) && SkipWs(t)[0] != ']' && t == "    " + SkipWs(t))
    decreases |names|
  {
    hide *;
    var tail := ["  ].freeze", ""] + more;
    if names == [] {
      NoWheelLines(tail);
      Closing(more);
      WordsNothing();
    } else {
      var n, ns := names[0], names[1..];
      assert n in names;
      assert forall x :: x in ns ==> x in names;
      NamesAreNameChars(n);
      NamesReadBack(ns, more);
      WheelLinesNext(names, tail);
      var j := JoinLines(WheelLines(ns) + tail);
      JoinMore("    " + n, WheelLines(ns) + tail);
      ConcatStrings("    ", n, "\n" + j);
      TwoSpaces();
      IndentFacts("    ");
      WordFirst(n, "\n" + j);
      SkipWsOver("    ", n + ("\n" + j));
      NewlineSpace();
      if ns == [] {
        NoWheelLines(tail);
        Closing(more);
        ClosedRegion("\n" + j);
        RegionName(n, "\n" + j);
        WordThen(n, "");
        WordsNothing();
      } else {
        var u := SkipWs(j);
        ConcatStrings("\n", "    ", u);
        RegionSpace("\n" + "    ", u);
        RegionName(n, "\n" + j);
        var gap := "\n" + "    ";
        WordFirst("\n", "    " + Region(u).value);
        ConcatStrings("\n", "    ", Region(u).value);
        WordSpace(gap + Region(u).value);
        WordThen(n, gap + Region(u).value);
        WordsSkip(gap, Region(u).value);
      }
      assert names == [n] + ns;
    }
  }

  lemma ConcatStrings(a: string, b: string, c: string)
    ensures (a + b) + c == a + (b + c)
  {
  }

  lemma ClosedRegion(u: string)
    requires ClosesList(u)
    ensures Region(u) == Some("")
  {
    hide ClosesList;
  }

  lemma WordSpace(s: string)
    requires s != "" && s[0] == '\n'
    ensures IsSpace(s[0])
  {
  }

  // ----- finding the list -----

  lemma WheelsHead()
    ensures WheelsWord() != "" && WheelsWord()[0] == 'P' && !IsSpace(WheelsWord()[0])
  {
  }

  lemma NoMatch(t: string)
    requires SkipWs(t) == "" || SkipWs(t)[0] != 'P'
    ensures MatchWheels(t).None?
  {
    hide SkipWs, StartsWith, WheelsWord, Region;
    WheelsHead();
    NotPrefix(SkipWs(t), WheelsWord());
  }

  lemma MatchSkips(w: string, t: string)
    requires AllSpace(w)
    ensures MatchWheels(w + t) == MatchWheels(t)
  {
    hide AllSpace, SkipWs, StartsWith, WheelsWord, Region;
    SkipWsThrough(w, t);
  }

  // An ignored line is blank or starts with a character that stays first whatever follows the line.
  lemma FirstStays(x: string, rest: string)
    ensures SkipWs(x) != "" ==> SkipWs(x + rest) != "" && SkipWs(x + rest)[0] == SkipWs(x)[0]
    ensures SkipWs(x) == "" ==> SkipWs(x + rest) == SkipWs(rest) && MatchWheels(x + rest) == MatchWheels(rest)
  {
    hide *;
    SkipWsTail(x);
    SkippedIsSpace(x);
    var t := SkipWs(x);
    var w := x[..|x| - |t|];
    assert x == w + t;
    ConcatStrings(w, t, rest);
    if t != "" {
      WordFirst(t, rest);
      SkipWsOver(w, t + rest);
    } else {
      assert t + rest == rest;
      SkipWsThrough(w, rest);
      MatchSkips(w, rest);
    }
  }

  lemma {:induction false} SkippedIsSpace(s: string)
    ensures AllSpace(s[..|s| - |SkipWs(s)|])
  {
    hide IsSpace;
    if s != "" && IsSpace(s[0]) {
      SkippedIsSpace(s[1..]);
      var n := |s| - |SkipWs(s)|;
      assert forall i :: 1 <= i < n ==> s[..n][i] == s[1..][..n - 1][i - 1];
    }
  }

  lemma FindFirst(lines: seq<string>)
    requires lines != []
    ensures FindWheels(lines) == if MatchWheels(JoinLines(lines)).Some? then MatchWheels(JoinLines(lines))
      else FindWheels(lines[1..])
  {
    hide MatchWheels, JoinLines;
  }

  lemma SkipLine(x: string, rest: seq<string>)
    requires Ignored(x) && rest != []
    ensures FindWheels([x] + rest) == FindWheels(rest)
  {
    hide *;
    IgnoredStart(x);
    FindFirst([x] + rest);
    FindFirst(rest);
    JoinMore(x, rest);
    assert ([x] + rest)[1..] == rest;
    var t := JoinLines(rest);
    FirstStays(x, "\n" + t);
    NewlineSpace();
    if SkipWs(x) == "" {
      MatchSkips("\n", t);
    } else {
      NoMatch(x + ("\n" + t));
    }
  }

  lemma IgnoredStart(x: string)
    requires Ignored(x)
    ensures SkipWs(x) == "" || SkipWs(x)[0] != 'P'
  {
  }

  // ----- a header whose values have line breaks -----

  /** Where a match stands before its opening bracket there is no quote. */
  lemma MatchNeedsOpener(t: string)
    requires MatchWheels(t).Some?
    ensures exists k :: 0 <= k < |t| && OpensAt(t, k) && forall i :: 0 <= i < k ==> t[i] != '"'
  {
    hide *;
    MatchParts(t);
    var a := After(t, WheelsWord()).value;
    var b := After(a, "=").value;
    var c := After(b, "%w[").value;
    var x := AfterShape(t, WheelsWord());
    var y := AfterShape(a, "=");
    var z := AfterShape(b, "%w[");
    WordHasNoQuote();
    OpenerInPlace(t, x, a, y, b, z, c);
  }

  lemma MatchParts(t: string)
    requires MatchWheels(t).Some?
    ensures After(t, WheelsWord()).Some?
    ensures After(After(t, WheelsWord()).value, "=").Some?
    ensures After(After(After(t, WheelsWord()).value, "=").value, "%w[").Some?
  {
    hide After, WheelsWord, Region, SkipWs;
  }

  predicate NoQuote(s: string) { forall i :: 0 <= i < |s| ==> s[i] != '"' }

  // White space, the word, and what comes after it.
  lemma AfterShape(t: string, w: string) returns (before: string)
    requires After(t, w).Some?
    ensures t == before + w + After(t, w).value && NoQuote(before)
  {
    hide SkipWs, IsSpace;
    SkippedIsSpace(t);
    SkipWsTail(t);
    var s := SkipWs(t);
    before := t[..|t| - |s|];
    SpaceHasNoQuote(before);
    AfterIs(t, w);
    assert t == before + s && s == w + s[|w|..];
  }

  lemma SpaceHasNoQuote(s: string)
    requires AllSpace(s)
    ensures NoQuote(s)
  {
  }

  lemma WordHasNoQuote()
    ensures NoQuote(WheelsWord()) && NoQuote("=") && OpensAt("%w[", 0) && |"%w["| == 3
  {
  }

  lemma OpenerInPlace(t: string, x: string, a: string, y: string, b: string, z: string, c: string)
    requires t == x + WheelsWord() + a && a == y + "=" + b && b == z + "%w[" + c
    requires NoQuote(x) && NoQuote(WheelsWord()) && NoQuote(y) && NoQuote("=") && NoQuote(z)
    ensures exists k :: 0 <= k < |t| && OpensAt(t, k) && forall i :: 0 <= i < k ==> t[i] != '"'
  {
    hide WheelsWord;
    var front := x + WheelsWord() + y + "=" + z;
    assert t == front + ("%w[" + c);
    assert NoQuote(front);
    var k := |front|;
    assert t[k] == "%w["[0] && t[k + 1] == "%w["[1] && t[k + 2] == "%w["[2];
    assert OpensAt(t, k);
    assert forall i :: 0 <= i < k ==> t[i] == front[i];
  }

  lemma JoinNoOpener(a: string, b: string)
    requires NoOpener(a) && NoOpener(b)
    requires (a != "" ==> a[|a| - 1] != '%' && a[|a| - 1] != 'w') || (b != "" ==> b[0] != 'w' && b[0] != '[')
    ensures NoOpener(a + b)
  {
    var s := a + b;
    forall k | 0 <= k < |s| ensures !OpensAt(s, k) {
      if k + 2 < |a| { assert !OpensAt(a, k); }
      if k >= |a| { assert !OpensAt(b, k - |a|); }
    }
  }

  lemma {:induction false} LinesNoOpener(lines: seq<string>)
    requires forall x :: x in lines ==> NoOpener(x)
    ensures NoOpener(JoinLines(lines))
  {
    hide NoOpener, OpensAt;
    if |lines| > 1 {
      assert lines[0] in lines && forall x :: x in lines[1..] ==> x in lines;
      LinesNoOpener(lines[1..]);
      NewlineOpensNothing();
      JoinNoOpener(lines[0], "\n");
      JoinNoOpener(lines[0] + "\n", JoinLines(lines[1..]));
    } else if |lines| == 1 {
      assert lines[0] in lines;
    } else {
      NewlineOpensNothing();
    }
  }

  lemma NewlineOpensNothing()
    ensures NoOpener("\n") && NoOpener("")
  {
  }

  lemma {:induction false} JoinedFront(lines: seq<string>, rest: seq<string>)
    requires lines != [] && rest != []
    ensures JoinLines(lines + rest) == JoinLines(lines) + ("\n" + JoinLines(rest))
    decreases |lines|
  {
    hide JoinLines;
    if |lines| == 1 {
      JoinMore(lines[0], rest);
      OneLine(lines);
      assert lines + rest == [lines[0]] + rest;
    } else {
      assert lines + rest == [lines[0]] + (lines[1..] + rest) && lines == [lines[0]] + lines[1..];
      JoinedFront(lines[1..], rest);
      JoinMore(lines[0], lines[1..] + rest);
      JoinMore(lines[0], lines[1..]);
      ConcatStrings("\n", JoinLines(lines[1..]), "\n" + JoinLines(rest));
      ConcatStrings(lines[0], "\n" + JoinLines(lines[1..]), "\n" + JoinLines(rest));
    }
  }

  lemma OneLine(lines: seq<string>)
    requires |lines| == 1
    ensures JoinLines(lines) == lines[0]
  {
  }

  lemma {:induction false} QuoteShows(lines: seq<string>)
    requires lines != [] && '"' in lines[|lines| - 1]
    ensures '"' in JoinLines(lines)
  {
    if |lines| > 1 { QuoteShows(lines[1..]); }
  }

  /** Lines that open no list, up to one with a quote in it, hold no match: it would have to get past that
      quote. */
  lemma {:induction false} SkipQuotedLines(lines: seq<string>, rest: seq<string>)
    requires lines != [] && '"' in lines[|lines| - 1] && rest != []
    requires forall x :: x in lines ==> NoOpener(x)
    ensures FindWheels(lines + rest) == FindWheels(rest)
    decreases |lines|
  {
    hide *;
    FindFirst(lines + rest);
    JoinedFront(lines, rest);
    LinesNoOpener(lines);
    QuoteShows(lines);
    QuoteStops(JoinLines(lines), "\n" + JoinLines(rest));
    assert (lines + rest)[1..] == lines[1..] + rest;
    if |lines| == 1 {
      assert lines[1..] + rest == rest;
    } else {
      assert forall x :: x in lines[1..] ==> x in lines;
      SkipQuotedLines(lines[1..], rest);
    }
  }

  lemma QuoteStops(front: string, rest: string)
    requires NoOpener(front) && '"' in front
    ensures MatchWheels(front + rest).None?
  {
    hide *;
    var t := front + rest;
    forall k | 0 <= k < |t| && OpensAt(t, k) ensures exists i :: 0 <= i < k && t[i] == '"' {
      QuoteBefore(front, rest, k);
    }
    if MatchWheels(t).Some? { MatchNeedsOpener(t); }
  }

  lemma QuoteBefore(front: string, rest: string, k: nat)
    requires NoOpener(front) && '"' in front && OpensAt(front + rest, k)
    ensures exists i :: 0 <= i < k && (front + rest)[i] == '"'
  {
    var t := front + rest;
    forall j | 0 <= j && j + 2 < |front| ensures OpensAt(t, j) == OpensAt(front, j) { SameOpening(front, rest, j); }
    var q :| 0 <= q < |front| && front[q] == '"';
    assert t[q] == front[q] && |front| <= k + 2;
    assert q != k && q != k + 1 && q != k + 2;
  }

  lemma SameOpening(front: string, rest: string, k: nat)
    requires k + 2 < |front|
    ensures OpensAt(front + rest, k) == OpensAt(front, k)
  {
  }

  lemma EqualsWords()
    ensures "=" != "" && !IsSpace("="[0]) && "%w[" != "" && !IsSpace("%w["[0]) && AllSpace(" ") && AllSpace("")
  {
  }

  lemma OpenShape(t: string)
    ensures WheelsOpen() + t == "  " + (WheelsWord() + (" " + ("=" + (" " + ("%w[" + t)))))
  {
    hide WheelsWord;
  }

  lemma MatchUnfolds(t: string, a: string, b: string, c: string)
    requires After(t, WheelsWord()) == Some(a) && After(a, "=") == Some(b) && After(b, "%w[") == Some(c)
    ensures MatchWheels(t) == Region(SkipWs(c))
  {
    hide After, WheelsWord, Region, SkipWs;
  }

  /** The list line is found and read. */
  lemma OpenMatches(t: string)
    ensures MatchWheels(WheelsOpen() + ("\n" + t)) == Region(SkipWs(t))
  {
    hide *;
    WheelsHead();
    EqualsWords();
    TwoSpaces();
    IndentFacts("  ");
    OpenShape("\n" + t);
    var c := "\n" + t;
    var b := " " + ("%w[" + c);
    var a := " " + ("=" + b);
    AfterOver("  ", WheelsWord(), a);
    AfterOver(" ", "=", b);
    AfterOver(" ", "%w[", c);
    MatchUnfolds(WheelsOpen() + c, a, b, c);
    NewlineSpace();
    SkipWsThrough("\n", t);
  }

  /** The list is found behind lines of which the last but an empty one has a quote, when none of them opens
      a list. */
  lemma WheelsFound(before: seq<string>, names: seq<string>, more: seq<string>)
    requires before != [] && '"' in before[|before| - 1] && forall x :: x in before ==> NoOpener(x)
    requires forall n :: n in names ==> ResourceName(n)
    ensures var m := FindWheels(before + ([""] + ([WheelsOpen()] + (WheelLines(names) + (["  ].freeze", ""] + more)))));
      m.Some? && Words(m.value) == names
  {
    hide *;
    var rest := WheelLines(names) + (["  ].freeze", ""] + more);
    SkipQuotedLines(before, [""] + ([WheelsOpen()] + rest));
    TameBlank();
    TameIsIgnored("");
    SkipLine("", [WheelsOpen()] + rest);
    FindFirst([WheelsOpen()] + rest);
    JoinMore(WheelsOpen(), rest);
    OpenMatches(JoinLines(rest));
    NamesReadBack(names, more);
  }

  lemma {:induction false} DistinctSize(s: seq<string>)
    requires Distinct(s)
    ensures |set x | x in s| == |s|
  {
    if s != [] {
      assert forall i :: 0 <= i < |s[1..]| ==> s[1..][i] == s[i + 1];
      DistinctSize(s[1..]);
      assert (set x | x in s) == (set x | x in s[1..]) + {s[0]};
      assert s[0] !in s[1..];
    }
  }

  lemma AuditedAre(lines: seq<string>, names: seq<string>)
    requires FindWheels(lines).Some? && Words(FindWheels(lines).value) == names && Distinct(names)
    ensures AuditedWheels(lines) == Ok(set x | x in names)
  {
    hide FindWheels, Words, Distinct;
    DistinctSize(names);
  }

  // ----- the install method reads back -----

  lemma {:induction false} FindInstallAfter(before: seq<string>, x: string, rest: seq<string>)
    requires (forall y :: y in before ==> Strip(y) != "def install") && Strip(x) == "def install"
    ensures FindInstall(before + ([x] + rest)) == |before|
    decreases |before|
  {
    hide Strip;
    if before == [] {
      assert before + ([x] + rest) == [x] + rest;
    } else {
      assert before[0] in before;
      assert forall y :: y in before[1..] ==> y in before;
      assert (before + ([x] + rest))[1..] == before[1..] + ([x] + rest);
      FindInstallAfter(before[1..], x, rest);
    }
  }

  predicate Solid(s: string) { s != "" && !IsSpace(s[0]) && !IsSpace(s[|s| - 1]) }

  lemma StripSolid(w: string, s: string)
    requires Indents(w) && Solid(s)
    ensures Strip(w + s) == s
  {
    hide Strip, IsSpace, Indents;
    IndentFacts(w);
    StripIndent(w, s);
  }

  /** No opener prefix, no trailing `do`, no bar. */
  predicate Closed(s: string) {
    && s != "" && s[0] !in {'d', 'i', 'u', 'c', 'b', 'f'} && (s[0] == 'w' ==> |s| > 2 && s[2] == 'e')
    && s[|s| - 1] != 'o' && '|' !in s
  }

  lemma {:induction false} ContainsChar(s: string, w: string, c: char)
    requires Contains(s, w) && c in w
    ensures c in s
  {
    if StartsWith(s, w) {
      var i :| 0 <= i < |w| && w[i] == c;
      WordPrefix(s, w, i);
    } else {
      ContainsChar(s[1..], w, c);
    }
  }

  lemma OpenerWords()
    ensures "def "[0] == 'd' && "if "[0] == 'i' && "unless "[0] == 'u' && "case "[0] == 'c' && "begin"[0] == 'b'
    ensures "while "[0] == 'w' && "while "[2] == 'i' && |"while "| == 6 && "until "[0] == 'u' && "for "[0] == 'f'
  {
  }

  lemma LastOf(s: string, w: string)
    requires EndsWith(s, w) && w != ""
    ensures s[|s| - 1] == w[|w| - 1]
  {
  }

  lemma ClosedOpensNothing(s: string)
    requires Closed(s)
    ensures !Opens(s)
  {
    hide StartsWith, EndsWith, Contains;
    OpenerWords();
    NotPrefix(s, "def ");
    NotPrefix(s, "if ");
    NotPrefix(s, "unless ");
    NotPrefix(s, "case ");
    NotPrefix(s, "begin");
    NotPrefix(s, "until ");
    NotPrefix(s, "for ");
    NotWhile(s);
    NotDo(s);
  }

  lemma DiffersAt(t: string, w: string, i: nat)
    requires i < |w| && i < |t| && t[i] != w[i]
    ensures !StartsWith(t, w)
  {
    assert |w| <= |t| ==> t[..|w|][i] == t[i];
  }

  lemma NotWhile(s: string)
    requires Closed(s)
    ensures !StartsWith(s, "while ")
  {
    OpenerWords();
    if s[0] == 'w' {
      DiffersAt(s, "while ", 2);
    } else {
      NotPrefix(s, "while ");
    }
  }

  lemma NotDo(s: string)
    requires Closed(s)
    ensures !EndsWith(s, " do") && !Contains(s, " do |")
  {
    hide EndsWith, Contains;
    assert " do"[2] == 'o' && " do |"[4] == '|' && '|' in " do |";
    if EndsWith(s, " do") { LastOf(s, " do"); }
    if Contains(s, " do |") { ContainsChar(s, " do |", '|'); }
  }

  predicate PlainCode(s: string) { Solid(s) && Closed(s) && s != "end" }

  lemma RouteLine1() ensures PlainCode("name = res.name") {}

  lemma RouteLine2() ensures PlainCode("wheel = resource(name).cached_download") {}

  lemma RouteLine3() ensures PlainCode("venv.pip_install wheel") {}

  lemma LinkCode()
    ensures PlainCode(LinkLine())
  {
    var a, b := "venv.pip_install_and_link buildpath, ", "build_isolation: false";
    assert '|' !in a && '|' !in b;
    assert LinkLine() == a + b && LinkLine()[0] == a[0] && LinkLine()[|a + b| - 1] == b[|b| - 1];
    assert 'v' == a[0] && "end"[0] == 'e';
  }

  lemma LoopLine()
    ensures Solid("resources.each do |res|") && Opens("resources.each do |res|") && "resources.each do |res|" != "end"
    ensures Solid("end")
  {
    assert "resources.each do |res|" == "resources.each" + " do |res|";
    assert StartsWith(" do |res|", " do |");
    ContainsLater("resources.each", " do |res|", " do |");
  }

  lemma {:induction false} ContainsLater(a: string, b: string, w: string)
    requires StartsWith(b, w)
    ensures Contains(a + b, w)
  {
    if a == "" {
      assert a + b == b;
    } else {
      assert (a + b)[1..] == a[1..] + b;
      ContainsLater(a[1..], b, w);
    }
  }

  lemma CreateWordFacts()
    ensures CreateWord() != "" && CreateWord()[0] == 'v' && '|' !in CreateWord() && "end"[0] == 'e'
  {
  }

  lemma {:induction false} RemovedKeeps(s: string, c: char, d: char)
    requires d !in s
    ensures d !in Removed(s, c)
  {
    if s != "" { RemovedKeeps(s[1..], c, d); }
  }

  lemma CreateCode(m: Manifest)
    requires PythonName(m.python)
    ensures PlainCode(CreateLine(m)) && StartsWith(CreateLine(m), CreateWord())
  {
    hide CreateWord, PythonName, Simple, Removed, Quotable;
    CreateWordFacts();
    PythonIsSimple(m.python);
    var v := Removed(m.python, '@');
    RemovedSimple(m.python, '@');
    RemovedKeeps(m.python, '@', '|');
    SimpleIs(v);
    QuoteForm(v);
    CreateLineShape(CreateWord(), v);
  }

  lemma CreateLineShape(word: string, v: string)
    requires word != "" && '|' !in word && '|' !in v
    ensures var s := word + (("\"" + (v + "\"")) + ")");
      s != "" && s[0] == word[0] && s[|s| - 1] == ')' && '|' !in s && StartsWith(s, word)
  {
  }

  function InstallTree(m: Manifest): (cs: seq<Code>) {
    [ Line("    " + CreateLine(m)),
      Nested("    " + "resources.each do |res|",
             [ Line("      " + "name = res.name"), Line("      " + "wheel = resource(name).cached_download"),
               Line("      " + "venv.pip_install wheel") ],
             "    " + "end"),
      Line("    " + LinkLine()) ]
  }

  lemma LineShaped(w: string, s: string)
    requires Indents(w) && PlainCode(s)
    ensures Strip(w + s) == s && s != "end" && !Opens(s)
  {
    hide *;
    PlainCodeFacts(s);
    StripSolid(w, s);
    ClosedOpensNothing(s);
  }

  lemma PlainCodeFacts(s: string)
    requires PlainCode(s)
    ensures Solid(s) && Closed(s) && s != "end"
  {
  }

  lemma InnerShaped()
    ensures Shaped([ Line("      " + "name = res.name"), Line("      " + "wheel = resource(name).cached_download"),
                     Line("      " + "venv.pip_install wheel") ])
  {
    hide Strip, Opens, Indents, PlainCode;
    TwoSpaces();
    RouteLine1();
    RouteLine2();
    RouteLine3();
    LineShaped("      ", "name = res.name");
    LineShaped("      ", "wheel = resource(name).cached_download");
    LineShaped("      ", "venv.pip_install wheel");
  }

  lemma TreeShaped(m: Manifest)
    requires PythonName(m.python)
    ensures Shaped(InstallTree(m))
  {
    hide Strip, Opens, Indents, PlainCode, CreateLine, LinkLine, PythonName, Solid;
    TwoSpaces();
    InnerShaped();
    CreateCode(m);
    LineShaped("    ", CreateLine(m));
    LinkCode();
    LineShaped("    ", LinkLine());
    LoopLine();
    StripSolid("    ", "resources.each do |res|");
    StripSolid("    ", "end");
  }

  lemma FlattenTree(m: Manifest)
    ensures Flatten(InstallTree(m)) ==
      [ "    " + CreateLine(m), "    " + "resources.each do |res|", "      " + "name = res.name",
        "      " + "wheel = resource(name).cached_download", "      " + "venv.pip_install wheel", "    " + "end",
        "    " + LinkLine() ]
  {
    hide CreateLine, LinkLine;
    var t := InstallTree(m);
    var create, loop, link := t[0], t[1], t[2];
    assert t == [create, loop, link];
    hide InstallTree;
    FlattenOnceLine([create, loop, link]);
    assert [create, loop, link][1..] == [loop, link];
    FlattenOnce([loop, link]);
    assert [loop, link][1..] == [link];
    FlattenOnceLine([link]);
    FlattenThree(loop.body[0], loop.body[1], loop.body[2]);
    assert loop.body == [loop.body[0], loop.body[1], loop.body[2]];
  }

  lemma FlattenOnceLine(cs: seq<Code>)
    requires cs != [] && cs[0].Line?
    ensures Flatten(cs) == [cs[0].text] + Flatten(cs[1..]) && Flatten([]) == []
  {
  }

  lemma FlattenThree(a: Code, b: Code, c: Code)
    requires a.Line? && b.Line? && c.Line?
    ensures Flatten([a, b, c]) == [a.text, b.text, c.text]
  {
    FlattenOnceLine([a, b, c]);
    assert [a, b, c][1..] == [b, c] && [b, c][1..] == [c];
    FlattenOnceLine([b, c]);
    FlattenOnceLine([c]);
  }

  lemma {:induction false} StrippedIs(lines: seq<string>, bodies: seq<string>)
    requires |lines| == |bodies| && forall i :: 0 <= i < |lines| ==> Strip(lines[i]) == bodies[i]
    ensures Stripped(lines) == bodies
  {
    hide Strip;
    if lines != [] {
      StrippedIs(lines[1..], bodies[1..]);
      assert bodies == [bodies[0]] + bodies[1..];
    }
  }

  function InstallBodyOf(m: Manifest): (body: seq<string>) { [CreateLine(m)] + RouteLines() + [LinkLine()] }

  lemma TreeStripped(m: Manifest)
    requires PythonName(m.python)
    ensures Stripped(Flatten(InstallTree(m))) == InstallBodyOf(m)
  {
    hide Strip, Opens, Indents, PlainCode, CreateLine, LinkLine, PythonName, Solid, InstallTree, Flatten;
    TwoSpaces();
    FlattenTree(m);
    CreateCode(m);
    LineShaped("    ", CreateLine(m));
    LinkCode();
    LineShaped("    ", LinkLine());
    LoopLine();
    StripSolid("    ", "resources.each do |res|");
    StripSolid("    ", "end");
    RouteLine1();
    RouteLine2();
    RouteLine3();
    LineShaped("      ", "name = res.name");
    LineShaped("      ", "wheel = resource(name).cached_download");
    LineShaped("      ", "venv.pip_install wheel");
    StrippedIs(Flatten(InstallTree(m)), InstallBodyOf(m));
  }

  lemma InstallIsTree(m: Manifest, rest: seq<string>)
    ensures InstallLines(m) + rest == ["  " + "def install"] + (Flatten(InstallTree(m)) + (["  " + "end"] + rest))
  {
    hide CreateLine, LinkLine, InstallTree, Flatten;
    FlattenTree(m);
  }

  lemma BodyApproved(m: Manifest)
    requires PythonName(m.python)
    ensures ApprovedRoute(InstallBodyOf(m))
  {
    hide CreateLine, LinkLine, CreateWord, PythonName, PlainCode, StartsWith;
    CreateCode(m);
    assert InstallBodyOf(m)[1..6] == RouteLines();
  }

  lemma DefLine()
    ensures Strip("  " + "def install") == "def install" && Strip("  " + "end") == "end"
  {
    hide Strip, Indents;
    TwoSpaces();
    StripSolid("  ", "def install");
    StripSolid("  ", "end");
  }

  /** The rendered install method is found and recognised. */
  lemma InstallFound(before: seq<string>, m: Manifest, rest: seq<string>)
    requires (forall y :: y in before ==> Strip(y) != "def install") && PythonName(m.python)
    ensures ExtractInstall(before + (InstallLines(m) + rest)) == Ok(InstallBodyOf(m))
  {
    hide *;
    DefLine();
    InstallIsTree(m, rest);
    var body := Flatten(InstallTree(m)) + (["  " + "end"] + rest);
    FindInstallAfter(before, "  " + "def install", body);
    TreeShaped(m);
    NestedBodyIsExtracted(InstallTree(m), "  " + "end", rest);
    TreeStripped(m);
    ExtractAt(before, "  " + "def install", body);
  }

  lemma ExtractAt(before: seq<string>, x: string, body: seq<string>)
    requires FindInstall(before + ([x] + body)) == |before| && InstallBody(body, 1).Some?
    ensures ExtractInstall(before + ([x] + body)) == Ok(InstallBody(body, 1).value)
  {
    hide FindInstall, InstallBody;
    var lines := before + ([x] + body);
    assert lines[|before| + 1..] == body;
  }

  // ----- the rendered text, line by line -----

  predicate AllUnbroken(lines: seq<string>) { forall x :: x in lines ==> Unbroken(x) }

  lemma UnbrokenJoin(a: seq<string>, b: seq<string>)
    requires AllUnbroken(a) && AllUnbroken(b)
    ensures AllUnbroken(a + b)
  {
    hide Unbroken;
  }

  /** A header line: no control characters, and it opens no list. */
  predicate HeaderLine(x: string) { Printable(x) && NoOpener(x) }

  predicate Printable(s: string) { forall i :: 0 <= i < |s| ==> s[i] >= ' ' }

  predicate AllHeaderLines(lines: seq<string>) { forall x :: x in lines ==> HeaderLine(x) }

  lemma HeaderLineJoin(a: string, b: string)
    requires HeaderLine(a) && HeaderLine(b)
    requires (a != "" ==> a[|a| - 1] == ' ' || a[|a| - 1] == '"')
      || (b != "" ==> b[0] == ' ' || b[0] == '"' || b[0] == ',')
    ensures HeaderLine(a + b)
  {
    JoinNoOpener(a, b);
    hide NoOpener;
  }

  lemma QuotedLine(v: string)
    requires Quotable(v) && NoOpener(v)
    ensures HeaderLine(Quote(v)) && Quote(v) != "" && Quote(v)[0] == '"' && Quote(v)[|Quote(v)| - 1] == '"'
  {
    QuoteForm(v);
    MarkLine();
    hide NoOpener;
    HeaderLineJoin(v, "\"");
    HeaderLineJoin("\"", v + "\"");
  }

  lemma MarkLine()
    ensures HeaderLine("\"") && HeaderLine("  ") && HeaderLine("")
  {
  }

  lemma WordsLine()
    ensures HeaderLine("class ") && HeaderLine(" < Formula") && HeaderLine("desc ") && HeaderLine("homepage ")
    ensures HeaderLine("url ") && HeaderLine("sha256 ") && HeaderLine("license ") && HeaderLine("head ")
    ensures HeaderLine(", branch: ") && HeaderLine("depends_on ")
  {
  }

  lemma FixedLines()
    ensures HeaderLine("  " + "include Language::Python::Virtualenv")
    ensures HeaderLine("  " + "depends_on arch: :arm64") && HeaderLine("  " + "depends_on :macos")
  {
  }

  lemma ValueLine(word: string, v: string)
    requires HeaderLine(word) && word != "" && word[|word| - 1] == ' ' && Quotable(v) && NoOpener(v)
    ensures HeaderLine("  " + (word + Quote(v)))
  {
    hide HeaderLine, NoOpener, Quotable, Quote;
    QuotedLine(v);
    MarkLine();
    HeaderLineJoin(word, Quote(v));
    HeaderLineJoin("  ", word + Quote(v));
  }

  lemma BranchLine(url: string, branch: string)
    requires Quotable(url) && NoOpener(url) && Quotable(branch) && NoOpener(branch)
    ensures HeaderLine("  " + ("head " + (Quote(url) + (", branch: " + Quote(branch)))))
  {
    hide HeaderLine, NoOpener, Quotable, Quote;
    QuotedLine(url);
    QuotedLine(branch);
    WordsLine();
    MarkLine();
    HeaderLineJoin(", branch: ", Quote(branch));
    HeaderLineJoin(Quote(url), ", branch: " + Quote(branch));
    HeaderLineJoin("head ", Quote(url) + (", branch: " + Quote(branch)));
    HeaderLineJoin("  ", "head " + (Quote(url) + (", branch: " + Quote(branch))));
  }

  lemma ClassLine(name: string)
    requires Quotable(name) && NoOpener(name)
    ensures HeaderLine("class " + (name + " < Formula"))
  {
    hide NoOpener;
    WordsLine();
    HeaderLineJoin(name, " < Formula");
    HeaderLineJoin("class ", name + " < Formula");
  }

  lemma PythonOpensNothing(s: string)
    requires PythonName(s)
    ensures NoOpener(s)
  {
    PythonIsSimple(s);
    var prefix := "python@";
    assert forall i :: 0 <= i < 7 ==> s[i] == s[..7][i] == prefix[i];
    assert forall i :: 0 <= i < 7 ==> prefix[i] != '%';
  }

  lemma HeaderValues(m: Manifest)
    requires Accepted(m)
    ensures Quotable(m.className) && Quotable(m.description) && Quotable(m.homepage) && Quotable(m.sourceUrl)
    ensures Quotable(m.sourceSha256) && Quotable(m.license) && Quotable(m.headUrl) && Quotable(m.headBranch)
    ensures Simple(m.python) && NothingOpens(m) && NoOpener(m.python)
  {
    hide Plain, Quotable, NothingOpens, NoOpener, ResourceOk, ResourceName, Distinct, PythonName;
    PythonIsSimple(m.python);
    PythonOpensNothing(m.python);
  }

  lemma HeaderIsPrintable(m: Manifest)
    requires Accepted(m)
    ensures AllHeaderLines(Header(m))
  {
    hide HeaderLine, Accepted, Plain, Quotable, NoOpener, Quote;
    HeaderValues(m);
    WordsLine();
    MarkLine();
    FixedLines();
    ClassLine(m.className);
    ValueLine("desc ", m.description);
    ValueLine("homepage ", m.homepage);
    ValueLine("url ", m.sourceUrl);
    ValueLine("sha256 ", m.sourceSha256);
    ValueLine("license ", m.license);
    BranchLine(m.headUrl, m.headBranch);
    ValueLine("depends_on ", m.python);
  }

  /** The last lines of the header: they are in one piece, and one has a quote. */
  function DependsLine(m: Manifest): string { "  " + ("depends_on " + Quote(m.python)) }

  lemma HeaderEnds(m: Manifest)
    ensures |Header(m)| == 14 && Header(m) == Header(m)[..12] + ([DependsLine(m)] + [""])
  {
    hide Quote;
  }

  lemma DependsLineFacts(m: Manifest)
    requires Accepted(m)
    ensures Unbroken(DependsLine(m)) && '"' in DependsLine(m) && !LineStarts(DependsLine(m), "#")
    ensures DependsLine(m) in Header(m)
  {
    hide Accepted, Plain, Quotable, NoOpener, Quote, Unbroken, LineStarts, NothingOpens;
    HeaderValues(m);
    DependsWords();
    QuietSimple("depends_on ", m.python);
    PlainQuote(m.python);
    HeaderTame(m);
    TameIs(Header(m));
    HeaderEnds(m);
    var q := Quote(m.python);
    assert DependsLine(m) == ("  " + "depends_on ") + q;
    assert DependsLine(m)[|"  " + "depends_on "|] == q[0] == '"';
  }

  lemma {:induction false} PiecesOpenNothing(lines: seq<string>)
    requires AllHeaderLines(lines)
    ensures forall p :: p in AllPieces(lines) ==> NoOpener(p)
  {
    hide *;
    if lines == [] {
      NoPieces();
    } else {
      FirstPieces(lines);
      AllHeaderTail(lines);
      PiecesOpenNothing(lines[1..]);
      forall p | p in Pieces(lines[0]) ensures NoOpener(p) {
        PrintableNoReturn(lines[0]);
        var i, j := PieceIsStretch(lines[0], p);
        StretchOpensNothing(lines[0], i, j);
      }
    }
  }

  lemma NoPieces()
    ensures AllPieces([]) == []
  {
  }

  lemma FirstPieces(lines: seq<string>)
    requires lines != []
    ensures AllPieces(lines) == Pieces(lines[0]) + AllPieces(lines[1..])
  {
    hide Pieces;
  }

  lemma AllHeaderTail(lines: seq<string>)
    requires AllHeaderLines(lines) && lines != []
    ensures HeaderLine(lines[0]) && AllHeaderLines(lines[1..])
  {
    hide HeaderLine;
  }

  lemma PrintableNoReturn(x: string)
    requires HeaderLine(x)
    ensures '\r' !in x && '\n' !in x
  {
    hide NoOpener;
  }

  lemma StretchOpensNothing(x: string, i: nat, j: nat)
    requires HeaderLine(x) && i <= j <= |x|
    ensures NoOpener(x[i..j])
  {
    forall k | 0 <= k < j - i ensures !OpensAt(x[i..j], k) { assert !OpensAt(x, i + k); }
  }

  /** The header as the verifier's line rules see it: in pieces, without those that are comments. */
  function HeaderCode(m: Manifest): (lines: seq<string>) { Uncommented(AllPieces(Header(m))) }

  lemma HeaderCodeShape(m: Manifest) returns (front: seq<string>)
    requires Accepted(m)
    ensures HeaderCode(m) == front + [""] && NoComments(HeaderCode(m))
    ensures front != [] && '"' in front[|front| - 1] && forall x :: x in front ==> NoOpener(x)
  {
    hide *;
    HeaderEnds(m);
    HeaderIsPrintable(m);
    PiecesOpenNothing(Header(m));
    DependsLineFacts(m);
    var start, end := Header(m)[..12], [DependsLine(m)] + [""];
    AllPiecesConcat(start, end);
    UnbrokenEnd(DependsLine(m));
    PlainPieces(end);
    HeaderCodeIs(m);
    UncommentedConcat(AllPieces(start), end);
    EndIsCode(DependsLine(m));
    UncommentedKept(end);
    front := Uncommented(AllPieces(start)) + [DependsLine(m)];
    ConcatAssociative(Uncommented(AllPieces(start)), [DependsLine(m)], [""]);
    UncommentedMeans(AllPieces(Header(m)));
    assert front[|front| - 1] == DependsLine(m);
  }

  lemma UnbrokenEnd(x: string)
    requires Unbroken(x)
    ensures forall y :: y in [x] + [""] ==> Unbroken(y)
  {
  }

  lemma HeaderCodeIs(m: Manifest)
    ensures HeaderCode(m) == Uncommented(AllPieces(Header(m)))
  {
    hide Uncommented, AllPieces, Header;
  }

  lemma EndIsCode(x: string)
    requires !LineStarts(x, "#")
    ensures NoComments([x] + [""])
  {
  }

  lemma {:induction false} UncommentedConcat(a: seq<string>, b: seq<string>)
    ensures Uncommented(a + b) == Uncommented(a) + Uncommented(b)
    decreases |a|
  {
    hide LineStarts;
    if a == [] {
      assert a + b == b;
    } else {
      assert (a + b)[1..] == a[1..] + b;
      UncommentedConcat(a[1..], b);
    }
  }

  lemma {:induction false} UncommentedMeans(lines: seq<string>)
    ensures forall x :: x in Uncommented(lines) <==> x in lines && !LineStarts(x, "#")
    ensures NoComments(Uncommented(lines))
  {
    hide LineStarts;
    if lines != [] {
      UncommentedMeans(lines[1..]);
      assert lines == [lines[0]] + lines[1..];
    }
  }

  /** No line break in the URLs of the header. */
  predicate UrlsUnbroken(m: Manifest) { Unbroken(m.homepage) && Unbroken(m.sourceUrl) && Unbroken(m.headUrl) }

  lemma FieldUnbroken(word: string, value: string)
    requires Plain(word) && Quotable(value) && Unbroken(value)
    ensures Unbroken("  " + (word + Quote(value)))
  {
    hide *;
    QuoteForm(value);
    TwoSpaces();
    OneQuoteMark();
    PlainUnbroken(word);
    PlainUnbroken("  ");
    UnbrokenConcat(value, "\"");
    UnbrokenConcat("\"", value + "\"");
    UnbrokenConcat(word, "\"" + (value + "\""));
    UnbrokenConcat("  ", word + ("\"" + (value + "\"")));
  }

  lemma HeadUnbroken(url: string, branch: string)
    requires Quotable(url) && Unbroken(url) && Simple(branch)
    ensures Unbroken("  " + ("head " + (Quote(url) + (", branch: " + Quote(branch)))))
  {
    hide *;
    HeaderWords();
    TwoSpaces();
    OneQuoteMark();
    PlainQuote(branch);
    PlainUnbroken(Quote(branch));
    PlainUnbroken(", branch: ");
    PlainUnbroken("head ");
    PlainUnbroken("  ");
    UnbrokenConcat(", branch: ", Quote(branch));
    QuoteForm(url);
    UnbrokenConcat(url, "\"");
    UnbrokenConcat("\"", url + "\"");
    UnbrokenConcat("\"" + (url + "\""), ", branch: " + Quote(branch));
    UnbrokenConcat("head ", Quote(url) + (", branch: " + Quote(branch)));
    UnbrokenConcat("  ", "head " + (Quote(url) + (", branch: " + Quote(branch))));
  }

  lemma HeaderIsUnbroken(m: Manifest)
    requires Accepted(m) && UrlsUnbroken(m)
    ensures AllUnbroken(Header(m))
  {
    hide Quiet, Unbroken, Plain, Quotable, ResourceOk, ResourceName, Distinct, Quote, Quoteless, Indents, PythonName;
    PythonIsSimple(m.python);
    HeaderWords();
    DependsWords();
    TwoSpaces();
    NothingUnbroken();
    PlainConcat(m.className, " < Formula");
    PlainConcat("class ", m.className + " < Formula");
    PlainUnbroken("class " + (m.className + " < Formula"));
    QuietPlain("  ", "include Language::Python::Virtualenv");
    QuietSimple("desc ", m.description);
    FieldUnbroken("homepage ", m.homepage);
    FieldUnbroken("url ", m.sourceUrl);
    QuietSimple("sha256 ", m.sourceSha256);
    QuietSimple("license ", m.license);
    HeadUnbroken(m.headUrl, m.headBranch);
    QuietPlain("  ", "depends_on arch: :arm64");
    QuietPlain("  ", "depends_on :macos");
    QuietSimple("depends_on ", m.python);
  }

  lemma BlockUnbroken(r: ManifestResource)
    requires ResourceOk(r) && Unbroken(r.url)
    ensures AllUnbroken(BlockLines(r))
  {
    hide Unbroken, ResourceOk, BlockLines, ResourceStart, Field, IsEnd;
    NameLine(r);
    UrlLineUnbroken(r);
    ShaLine(r);
    EndLine();
    BlockSize(r);
  }

  lemma GapUnbroken(rs: seq<ManifestResource>, previous: Option<Role>) returns (gap: seq<string>)
    requires rs != []
    ensures ResourceLines(rs, previous) == gap + (BlockLines(rs[0]) + ResourceLines(rs[1..], Some(rs[0].role)))
    ensures AllUnbroken(gap)
  {
    hide Unbroken, BlockLines;
    NothingUnbroken();
    gap := if previous.Some? && rs[0].role != previous.value then [""] else [];
    ConcatAssociative(gap, BlockLines(rs[0]), ResourceLines(rs[1..], Some(rs[0].role)));
  }

  lemma NoneUnbroken(previous: Option<Role>)
    ensures AllUnbroken(ResourceLines([], previous))
  {
  }

  lemma {:induction false} BlocksUnbroken(rs: seq<ManifestResource>, previous: Option<Role>)
    requires forall r :: r in rs ==> ResourceOk(r) && Unbroken(r.url)
    ensures AllUnbroken(ResourceLines(rs, previous))
    decreases |rs|
  {
    hide *;
    if rs == [] {
      NoneUnbroken(previous);
    } else {
      assert rs[0] in rs;
      var gap := GapUnbroken(rs, previous);
      BlockUnbroken(rs[0]);
      BlocksUnbroken(rs[1..], Some(rs[0].role));
      UnbrokenJoin(BlockLines(rs[0]), ResourceLines(rs[1..], Some(rs[0].role)));
      UnbrokenJoin(gap, BlockLines(rs[0]) + ResourceLines(rs[1..], Some(rs[0].role)));
    }
  }

  /** The lines after the comments, before and after the wheel list. */
  function AfterList(m: Manifest): (lines: seq<string>) {
    ResourceLines(m.resources, None) + ([""] + (InstallLines(m) + TestLines()))
  }

  /** The wheel list and all that follows it. */
  function ListPart(m: Manifest): (lines: seq<string>) {
    [WheelsOpen()] + (WheelLines(Sort(m.declared, StrLe)) + (["  ].freeze", ""] + AfterList(m)))
  }

  function CodePart(m: Manifest): (lines: seq<string>) { HeaderCode(m) + ListPart(m) }

  lemma LinesAre(m: Manifest)
    ensures FormulaLines(m) == Comments(m) + (Header(m) + ListPart(m))
  {
    hide Comments, Header, WheelsOpen, WheelLines, Sort, ResourceLines, InstallLines, TestLines;
  }

  lemma NoNewline(x: string)
    requires Unbroken(x)
    ensures '\n' !in x
  {
  }

  lemma {:induction false} RawLines(lines: seq<string>)
    requires forall x :: x in lines ==> '\n' !in x
    ensures SplitOn(Unlines(lines), '\n') == lines + [""]
  {
    if lines != [] {
      assert lines[0] in lines;
      assert forall x :: x in lines[1..] ==> x in lines;
      assert "\n" == ['\n'];
      SplitFirst(lines[0], Unlines(lines[1..]), '\n');
      RawLines(lines[1..]);
      assert lines + [""] == [lines[0]] + (lines[1..] + [""]);
    }
  }

  lemma RenderedLines(m: Manifest)
    requires Accepted(m) && forall r :: r in m.resources ==> Unbroken(r.url)
    ensures SplitLines(Render(m)) == Comments(m) + (AllPieces(Header(m)) + ListPart(m))
    ensures SplitOn(Render(m), '\n') == Comments(m) + (Header(m) + ListPart(m)) + [""]
  {
    hide *;
    LinesAre(m);
    RenderIs(m);
    CommentsQuiet(m);
    ListUnbroken(m);
    AllAsQuantified(ListPart(m));
    HeaderIsPrintable(m);
    HeaderNoReturn(m);
    NoReturns(Comments(m));
    NoReturns(ListPart(m));
    var l := Comments(m) + (Header(m) + ListPart(m));
    assert forall x :: x in l <==> x in Comments(m) || x in Header(m) || x in ListPart(m);
    SplitUnlines(l);
    AllPiecesConcat(Comments(m), Header(m) + ListPart(m));
    AllPiecesConcat(Header(m), ListPart(m));
    PlainPieces(Comments(m));
    PlainPieces(ListPart(m));
    RawLines(l);
  }

  lemma HeaderNoReturn(m: Manifest)
    requires AllHeaderLines(Header(m))
    ensures forall x :: x in Header(m) ==> '\r' !in x && '\n' !in x
  {
    hide Header, HeaderLine;
    forall x | x in Header(m) ensures '\r' !in x && '\n' !in x { PrintableNoReturn(x); }
  }

  lemma AllAsQuantified(lines: seq<string>)
    requires AllUnbroken(lines)
    ensures forall x :: x in lines ==> Unbroken(x)
  {
    hide Unbroken;
  }

  lemma NoReturns(lines: seq<string>)
    requires forall x :: x in lines ==> Unbroken(x)
    ensures forall x :: x in lines ==> '\r' !in x && '\n' !in x
  {
    hide Unbroken;
    forall x | x in lines ensures '\r' !in x && '\n' !in x {
      NoCarriageReturn(x);
      NoNewline(x);
    }
  }

  lemma AsAllUnbroken(lines: seq<string>)
    requires forall x :: x in lines ==> Unbroken(x)
    ensures AllUnbroken(lines)
  {
    hide Unbroken;
  }

  lemma CodePartIs(m: Manifest)
    ensures CodePart(m) == HeaderCode(m) + ListPart(m)
    ensures ListPart(m) == [WheelsOpen()] + (WheelLines(Sort(m.declared, StrLe)) + (["  ].freeze", ""] + AfterList(m)))
    ensures AfterList(m) == ResourceLines(m.resources, None) + ([""] + (InstallLines(m) + TestLines()))
  {
    hide HeaderCode, WheelsOpen, WheelLines, Sort, ResourceLines, InstallLines, TestLines;
  }

  lemma FixedListUnbroken()
    ensures AllUnbroken([WheelsOpen()]) && AllUnbroken(["  ].freeze", ""]) && AllUnbroken([""])
  {
    hide Unbroken, Quiet, WheelsOpen;
    ListLinesQuiet();
  }

  lemma ListUnbroken(m: Manifest)
    requires Accepted(m) && forall r :: r in m.resources ==> Unbroken(r.url)
    ensures AllUnbroken(ListPart(m))
  {
    hide *;
    CodePartIs(m);
    FixedListUnbroken();
    DeclaredQuiet(m);
    AsAllUnbroken(WheelLines(Sort(m.declared, StrLe)));
    ResourcesOk(m);
    BlocksUnbroken(m.resources, None);
    PythonSimple(m);
    InstallQuiet(m);
    AsAllUnbroken(InstallLines(m));
    TestQuiet();
    AsAllUnbroken(TestLines());
    UnbrokenJoin(InstallLines(m), TestLines());
    UnbrokenJoin([""], InstallLines(m) + TestLines());
    UnbrokenJoin(ResourceLines(m.resources, None), [""] + (InstallLines(m) + TestLines()));
    UnbrokenJoin(["  ].freeze", ""], AfterList(m));
    UnbrokenJoin(WheelLines(Sort(m.declared, StrLe)), ["  ].freeze", ""] + AfterList(m));
    UnbrokenJoin([WheelsOpen()], WheelLines(Sort(m.declared, StrLe)) + (["  ].freeze", ""] + AfterList(m)));
  }

  // ----- code lines and the automatic route -----

  predicate NoComments(lines: seq<string>) { forall x :: x in lines ==> !LineStarts(x, "#") }

  predicate NoInstall(lines: seq<string>) { forall x :: x in lines ==> Strip(x) != "def install" }

  lemma {:induction false} UncommentedKept(lines: seq<string>)
    requires NoComments(lines)
    ensures Uncommented(lines) == lines
  {
    hide LineStarts;
    if lines != [] {
      assert lines[0] in lines;
      assert forall x :: x in lines[1..] ==> x in lines;
      UncommentedKept(lines[1..]);
      assert lines == [lines[0]] + lines[1..];
    }
  }

  lemma {:induction false} UncommentedDropped(comments: seq<string>, rest: seq<string>)
    requires forall x :: x in comments ==> LineStarts(x, "#")
    ensures Uncommented(comments + rest) == Uncommented(rest)
    decreases |comments|
  {
    hide LineStarts;
    if comments == [] {
      assert comments + rest == rest;
    } else {
      assert comments[0] in comments;
      assert forall x :: x in comments[1..] ==> x in comments;
      assert (comments + rest)[1..] == comments[1..] + rest;
      UncommentedDropped(comments[1..], rest);
    }
  }

  lemma {:induction false} CallsConcat(a: seq<string>, b: seq<string>)
    ensures AnyCallsVirtualenv(a + b) <==> AnyCallsVirtualenv(a) || AnyCallsVirtualenv(b)
    decreases |a|
  {
    hide CallsVirtualenv;
    if a == [] {
      assert a + b == b;
    } else {
      assert (a + b)[1..] == a[1..] + b;
      CallsConcat(a[1..], b);
    }
  }

  lemma {:induction false} AnyCallsIs(lines: seq<string>)
    ensures AnyCallsVirtualenv(lines) <==> exists x :: x in lines && CallsVirtualenv(x)
  {
    hide CallsVirtualenv;
    if lines != [] {
      AnyCallsIs(lines[1..]);
      assert lines == [lines[0]] + lines[1..];
    }
  }

  lemma NoneCallsAny(lines: seq<string>)
    requires NoneCalls(lines)
    ensures !AnyCallsVirtualenv(lines)
  {
    hide CallsVirtualenv, AnyCallsVirtualenv;
    AnyCallsIs(lines);
  }

  lemma CommentLine(words: string, value: string)
    requires words != "" && words[0] == '#'
    ensures LineStarts(words + value, "#") && !CallsVirtualenv(words + value)
  {
    hide VirtualenvWord;
    var x := words + value;
    assert x[0] == '#';
    VirtualenvStart();
    NotPrefix(x, VirtualenvWord());
    assert x[..1] == "#";
  }

  lemma CommentsAreComments(m: Manifest)
    ensures NoneCalls(Comments(m)) && forall x :: x in Comments(m) ==> LineStarts(x, "#")
  {
    hide LineStarts, CallsVirtualenv, Banner;
    BannerStart();
    CommentLine(Banner(), "");
    assert Banner() + "" == Banner();
    CommentLine("# uv.lock sha256: ", m.uvLockSha256);
    CommentLine("# candidate-pins.json sha256: ", m.pinsSha256);
    CommentLine("# reviewed commit: ", m.reviewedCommit);
    CommentLine("# reviewed release tree sha256: ", m.treeSha256);
  }

  lemma OpenLineFacts()
    ensures NoComments([WheelsOpen()]) && NoInstall([WheelsOpen()]) && NoneCalls([WheelsOpen()])
  {
    hide SkipWs, Strip, StartsWith, VirtualenvWord, WheelsWord;
    var x := WheelsOpen();
    WheelsStart();
    WheelsHead();
    TwoSpaces();
    IndentFacts("  ");
    SkipWsOver("  ", WheelsWord() + " = %w[");
    VirtualenvStart();
    NotPrefix(SkipWs(x), "#");
    NotPrefix(SkipWs(x), VirtualenvWord());
    NotPrefix(SkipWs(x), "def install");
    if Strip(x) == "def install" { StripStart(x, "def install"); }
  }

  lemma IgnoredIs(lines: seq<string>)
    requires AllIgnored(lines)
    ensures NoComments(lines) && NoInstall(lines)
  {
    hide LineStarts, SkipWs, Strip;
  }

  lemma TameIs(lines: seq<string>)
    requires AllTame(lines)
    ensures NoComments(lines) && NoInstall(lines) && !AnyCallsVirtualenv(lines)
  {
    hide *;
    AllTameIgnored(lines);
    IgnoredIs(lines);
    NoneCallsAny(lines);
  }

  lemma JoinFacts(a: seq<string>, b: seq<string>)
    ensures NoComments(a) && NoComments(b) ==> NoComments(a + b)
    ensures NoInstall(a) && NoInstall(b) ==> NoInstall(a + b)
  {
    hide LineStarts, Strip;
  }

  lemma InstallLineFacts(m: Manifest)
    ensures NoComments(InstallLines(m)) && !AnyCallsVirtualenv(InstallLines(m))
  {
    hide *;
    InstallRestTame(m);
    TameIs(InstallLines(m)[1..]);
    assert InstallLines(m) == [InstallLines(m)[0]] + InstallLines(m)[1..];
    InstallFirst(m);
    JoinFacts([InstallLines(m)[0]], InstallLines(m)[1..]);
    CallsConcat([InstallLines(m)[0]], InstallLines(m)[1..]);
  }

  lemma InstallFirst(m: Manifest)
    ensures |InstallLines(m)| == 9
    ensures NoComments([InstallLines(m)[0]]) && !AnyCallsVirtualenv([InstallLines(m)[0]])
  {
    hide CreateLine, LinkLine, RouteLines, VirtualenvWord;
    SkipWsOver("  ", "def install");
    VirtualenvStart();
    NotPrefix("def install", VirtualenvWord());
    NotPrefix("def install", "#");
  }

  /** Between the header and the install method. */
  function BeforeInstall(m: Manifest): (lines: seq<string>) {
    [WheelsOpen()] + (WheelLines(Sort(m.declared, StrLe))
      + (["  ].freeze", ""] + (ResourceLines(m.resources, None) + [""])))
  }

  lemma ListPartSplits(m: Manifest)
    ensures ListPart(m) == BeforeInstall(m) + (InstallLines(m) + TestLines())
  {
    hide WheelsOpen, WheelLines, Sort, ResourceLines, InstallLines, TestLines;
    var b, c, d, e, f, g, h := [WheelsOpen()], WheelLines(Sort(m.declared, StrLe)), ["  ].freeze", ""],
      ResourceLines(m.resources, None), [""], InstallLines(m) + TestLines(), BeforeInstall(m);
    assert ListPart(m) == b + (c + (d + (e + (f + g))));
    assert h == b + (c + (d + (e + f)));
    SixParts([], b, c, d, e, f, g);
    NothingInFront(b + (c + (d + (e + (f + g)))), b + (c + (d + (e + f))));
  }

  lemma NothingInFront(a: seq<string>, b: seq<string>)
    ensures [] + a == a && [] + b == b
  {
  }

  lemma SixParts(
    a: seq<string>, b: seq<string>, c: seq<string>, d: seq<string>, e: seq<string>, f: seq<string>, g: seq<string>)
    ensures a + (b + (c + (d + (e + (f + g))))) == (a + (b + (c + (d + (e + f))))) + g
  {
  }

  lemma BeforeInstallFacts(m: Manifest)
    requires Accepted(m)
    ensures NoComments(BeforeInstall(m)) && NoInstall(BeforeInstall(m))
    ensures AnyCallsVirtualenv(BeforeInstall(m)) <==> VirtualenvWord() in m.declared
  {
    hide *;
    BeforeInstallIs(m);
    var names := Sort(m.declared, StrLe);
    DeclaredNames(m);
    OpenLineFacts();
    NoneCallsAny([WheelsOpen()]);
    WheelLinesIgnored(names);
    IgnoredIs(WheelLines(names));
    AnyCallsIs(WheelLines(names));
    CloseTame();
    TameIs(["  ].freeze", ""]);
    TameIs([""]);
    ResourcesTame(m.resources, None);
    TameIs(ResourceLines(m.resources, None));
    var e := ResourceLines(m.resources, None) + [""];
    JoinFacts(ResourceLines(m.resources, None), [""]);
    CallsConcat(ResourceLines(m.resources, None), [""]);
    var d := ["  ].freeze", ""] + e;
    JoinFacts(["  ].freeze", ""], e);
    CallsConcat(["  ].freeze", ""], e);
    var c := WheelLines(names) + d;
    JoinFacts(WheelLines(names), d);
    CallsConcat(WheelLines(names), d);
    JoinFacts([WheelsOpen()], c);
    CallsConcat([WheelsOpen()], c);
  }

  lemma BeforeInstallIs(m: Manifest)
    ensures BeforeInstall(m) ==
      [WheelsOpen()] + (WheelLines(Sort(m.declared, StrLe))
        + (["  ].freeze", ""] + (ResourceLines(m.resources, None) + [""])))
  {
    hide WheelsOpen, WheelLines, Sort, ResourceLines;
  }

  /** The listed names are the declared ones, each once, in order. */
  lemma DeclaredNames(m: Manifest)
    requires Accepted(m)
    ensures var names := Sort(m.declared, StrLe);
      && Distinct(names) && (forall n :: n in names <==> n in m.declared)
        && (forall n :: n in names ==> ResourceName(n))
  {
    hide ResourceName, ResourceOk, Plain, Quotable, Sort, PythonName;
    SortMembers(m.declared, StrLe);
    SortMultiset(m.declared, StrLe);
    PermutationDistinct(m.declared, Sort(m.declared, StrLe));
  }

  lemma CodeLinesAre(m: Manifest)
    requires Accepted(m) && forall r :: r in m.resources ==> Unbroken(r.url)
    ensures CodeLines(Render(m)) == CodePart(m)
    ensures AnyCallsVirtualenv(SplitOn(Render(m), '\n')) <==> VirtualenvWord() in m.declared
  {
    hide *;
    RenderedLines(m);
    CodeLinesOf(Render(m));
    CodePartIs(m);
    HeaderCodeIs(m);
    CommentsAreComments(m);
    ListPartSplits(m);
    BeforeInstallFacts(m);
    InstallLineFacts(m);
    TestTame();
    TameIs(TestLines());
    JoinFacts(InstallLines(m), TestLines());
    JoinFacts(BeforeInstall(m), InstallLines(m) + TestLines());
    UncommentedDropped(Comments(m), AllPieces(Header(m)) + ListPart(m));
    UncommentedConcat(AllPieces(Header(m)), ListPart(m));
    UncommentedKept(ListPart(m));
    CallsConcat(InstallLines(m), TestLines());
    CallsConcat(BeforeInstall(m), InstallLines(m) + TestLines());
    NoneCallsAny(Comments(m));
    HeaderTame(m);
    TameIs(Header(m));
    CallsConcat(Header(m), ListPart(m));
    CallsConcat(Comments(m), Header(m) + ListPart(m));
    CloseTame();
    TameIs([""]);
    CallsConcat(Comments(m) + (Header(m) + ListPart(m)), [""]);
  }

  lemma CodeLinesOf(text: string)
    ensures CodeLines(text) == Uncommented(SplitLines(text))
  {
    hide SplitLines, Uncommented;
  }

  // ----- the verdict -----

  predicate AllReadable(m: Manifest, filename: Filename) {
    forall r :: r in m.resources ==> Readable(r, filename)
  }

  /** The declared wheels are the platform wheels. */
  predicate DeclaredExactly(m: Manifest, filename: Filename) {
    (set n | n in m.declared) == set r | r in m.resources && Classify(r.url, filename) == Some(PLATFORM_WHEEL) :: r.name
  }

  lemma ReadableMeans(m: Manifest, filename: Filename)
    requires AllReadable(m, filename)
    ensures FirstUnreadable(m.resources, filename) == |m.resources|
    ensures forall r :: r in m.resources ==> Unbroken(r.url)
  {
    hide Unbroken, Classify;
    UnreadableExists(m, filename);
  }

  lemma ParsedPlatforms(m: Manifest, filename: Filename)
    requires AllReadable(m, filename)
    ensures PlatformNames(ParsedUpTo(m.resources, filename)) ==
      set r | r in m.resources && Classify(r.url, filename) == Some(PLATFORM_WHEEL) :: r.name
  {
    hide Unbroken, Classify;
    ReadableMeans(m, filename);
    ParsedUpToExact(m.resources, filename);
    var parsed := ParsedUpTo(m.resources, filename);
    hide ParsedUpTo, FirstUnreadable;
    forall r | r in m.resources && Classify(r.url, filename) == Some(PLATFORM_WHEEL)
      ensures r.name in PlatformNames(parsed)
    {
      var i :| 0 <= i < |m.resources| && m.resources[i] == r;
      assert parsed[i] in parsed && parsed[i] == Parsed(r, filename);
    }
    forall p | p in parsed && p.kind == PLATFORM_WHEEL
      ensures exists r :: r in m.resources && Classify(r.url, filename) == Some(PLATFORM_WHEEL) && r.name == p.name
    {
      var i :| 0 <= i < |parsed| && parsed[i] == p;
      assert m.resources[i] in m.resources && p == Parsed(m.resources[i], filename);
    }
  }

  /** No piece of a header line reads as the start of the install method. */
  predicate HeaderInstallsNothing(m: Manifest) { NoInstall(HeaderCode(m)) }

  /** What the verifier takes for the install method, in a rendered formula. */
  function InstallRead(m: Manifest): (r: Result<seq<string>>) { ExtractInstall(CodePart(m)) }

  /** The rendered method is the one that is read, unless a piece of the header starts another one. */
  lemma InstallReadIs(m: Manifest)
    requires Accepted(m) && HeaderInstallsNothing(m)
    ensures InstallRead(m) == Ok(InstallBodyOf(m)) && ApprovedRoute(InstallBodyOf(m))
  {
    hide *;
    InstallsNothingIs(m);
    InstallInCode(m);
  }

  lemma InstallsNothingIs(m: Manifest)
    ensures HeaderInstallsNothing(m) <==> NoInstall(HeaderCode(m))
    ensures InstallRead(m) == ExtractInstall(CodePart(m))
  {
    hide NoInstall, HeaderCode, ExtractInstall, CodePart;
  }

  /** The verdict on any accepted manifest whose resources are readable. The resources and the declared
      wheels are read back in full, line breaks in the header or not. The formula is valid exactly when the
      declared wheels are the platform wheels and, unless there are none, none is named like the automatic
      install route and the install method that is read takes the approved one. */
  lemma VerdictExact(m: Manifest, filename: Filename)
    requires Accepted(m) && AllReadable(m, filename)
    ensures var v := Verify(Render(m), filename);
      if InstallRead(m).Err? then v == Err(InstallRead(m).error)
      else
        && v.Ok? && v.value.resources == ParsedUpTo(m.resources, filename)
        && v.value.audited == (set n | n in m.declared)
        && (v.value.usesVirtualenv <==> VirtualenvWord() in m.declared)
        && (v.value.violations == {} <==>
              && DeclaredExactly(m, filename)
              && (m.declared == [] || (VirtualenvWord() !in m.declared && ApprovedRoute(InstallRead(m).value))))
  {
    hide *;
    ReadableMeans(m, filename);
    ParseUndoesRender(m, filename);
    CodeLinesAre(m);
    WheelsInCode(m);
    InstallsNothingIs(m);
    var parsed := ParsedUpTo(m.resources, filename);
    var platform, audited := PlatformNames(parsed), set n | n in m.declared;
    var virtualenv := VirtualenvWord() in m.declared;
    VerifyIs(Render(m), filename, parsed, audited);
    if InstallRead(m).Ok? { NoViolationsIff(platform, audited, virtualenv, ApprovedRoute(InstallRead(m).value)); }
    ParsedPlatforms(m, filename);
    ExactlyIs(m, filename);
    NobodyDeclared(m);
  }

  /** What is flagged then, name by name. */
  lemma FlaggedExactly(m: Manifest, filename: Filename, n: string)
    requires Accepted(m) && AllReadable(m, filename) && InstallRead(m).Ok?
    ensures var v := Verify(Render(m), filename);
      var platform := exists r :: r in m.resources && Classify(r.url, filename) == Some(PLATFORM_WHEEL) && r.name == n;
      && v.Ok?
      && (n in v.value.violations <==>
            if platform then
              n !in m.declared || VirtualenvWord() in m.declared || !ApprovedRoute(InstallRead(m).value)
            else n in m.declared)
  {
    hide *;
    ReadableMeans(m, filename);
    ParseUndoesRender(m, filename);
    CodeLinesAre(m);
    WheelsInCode(m);
    InstallsNothingIs(m);
    var parsed := ParsedUpTo(m.resources, filename);
    var platform, audited := PlatformNames(parsed), set x | x in m.declared;
    VerifyIs(Render(m), filename, parsed, audited);
    ViolationsTell(platform, audited, VirtualenvWord() in m.declared, ApprovedRoute(InstallRead(m).value), n);
    ParsedPlatforms(m, filename);
  }

  lemma NobodyDeclared(m: Manifest)
    ensures (set n | n in m.declared) == {} <==> m.declared == []
  {
    var names := set n | n in m.declared;
    if m.declared != [] {
      assert m.declared[0] in names;
    } else {
      assert names == {};
    }
  }

  /** When no piece of the header starts an install method, the verdict is as declared: valid exactly when
      the declared wheels are the platform wheels and none of them is named like the automatic route. */
  lemma VerdictOnRender(m: Manifest, filename: Filename)
    requires Accepted(m) && HeaderInstallsNothing(m) && AllReadable(m, filename)
    ensures var v := Verify(Render(m), filename);
      && v.Ok? && v.value.resources == ParsedUpTo(m.resources, filename)
      && v.value.audited == (set n | n in m.declared)
      && (v.value.usesVirtualenv <==> VirtualenvWord() in m.declared)
      && (v.value.violations == {} <==> DeclaredExactly(m, filename) && VirtualenvWord() !in m.declared)
  {
    hide *;
    InstallReadIs(m);
    VerdictExact(m, filename);
  }

  /** A header whose URLs have no line breaks starts none. */
  lemma UnbrokenUrlsInstallNothing(m: Manifest)
    requires Accepted(m) && UrlsUnbroken(m)
    ensures HeaderInstallsNothing(m)
  {
    hide *;
    HeaderIsUnbroken(m);
    InstallsNothingIs(m);
    HeaderCodeIs(m);
    AllAsQuantified(Header(m));
    PlainPieces(Header(m));
    HeaderTame(m);
    TameIs(Header(m));
    UncommentedKept(Header(m));
  }

  lemma ExactlyIs(m: Manifest, filename: Filename)
    ensures DeclaredExactly(m, filename) <==>
      (set n | n in m.declared) == set r | r in m.resources
        && Classify(r.url, filename) == Some(PLATFORM_WHEEL) :: r.name
  {
    hide Classify;
  }

  lemma VerifyIs(text: string, filename: Filename, parsed: seq<Resource>, audited: set<string>)
    requires Parse(text, filename) == Ok(parsed) && AuditedWheels(CodeLines(text)) == Ok(audited)
    ensures var virtualenv, install := AnyCallsVirtualenv(SplitOn(text, '\n')), ExtractInstall(CodeLines(text));
      Verify(text, filename) ==
        if install.Err? then Err(install.error)
        else Ok(Verification(parsed, virtualenv, audited,
                             Violations(PlatformNames(parsed), audited, virtualenv, ApprovedRoute(install.value))))
  {
    hide Parse, AuditedWheels, CodeLines, ExtractInstall, ApprovedRoute, AnyCallsVirtualenv, SplitOn, PlatformNames,
      Violations;
  }

  lemma WheelsInCode(m: Manifest)
    requires Accepted(m)
    ensures AuditedWheels(CodePart(m)) == Ok(set n | n in m.declared)
  {
    hide *;
    var names := Sort(m.declared, StrLe);
    CodePartIs(m);
    DeclaredNames(m);
    var front := HeaderCodeShape(m);
    WheelsFound(front, names, AfterList(m));
    ConcatAssociative(front, [""], ListPart(m));
    AuditedAre(CodePart(m), names);
    assert (set n | n in names) == set n | n in m.declared;
  }

  lemma InstallInCode(m: Manifest)
    requires Accepted(m) && NoInstall(HeaderCode(m))
    ensures ExtractInstall(CodePart(m)) == Ok(InstallBodyOf(m)) && ApprovedRoute(InstallBodyOf(m))
  {
    hide *;
    CodePartIs(m);
    ListPartSplits(m);
    BeforeInstallFacts(m);
    AcceptedPython(m);
    JoinFacts(HeaderCode(m), BeforeInstall(m));
    NoInstallIs(HeaderCode(m) + BeforeInstall(m));
    InstallFound(HeaderCode(m) + BeforeInstall(m), m, TestLines());
    ConcatAssociative(HeaderCode(m), BeforeInstall(m), InstallLines(m) + TestLines());
    BodyApproved(m);
  }

  lemma AcceptedPython(m: Manifest)
    requires Accepted(m)
    ensures PythonName(m.python)
  {
    hide PythonName, ResourceOk, ResourceName, Quotable, Simple;
  }

  lemma NoInstallIs(lines: seq<string>)
    requires NoInstall(lines)
    ensures forall y :: y in lines ==> Strip(y) != "def install"
  {
    hide Strip;
  }

  // ----- the generator -----

  /** The generator's loop over the resources with the role of the one before. */
  method RenderResources(resources: seq<ManifestResource>) returns (lines: seq<string>)
    ensures lines == ResourceLines(resources, None)
  {
    hide *;
    lines := [];
    var previous: Option<Role> := None;
    assert resources[0..] == resources;
    assert [] + ResourceLines(resources, None) == ResourceLines(resources, None);
    for i := 0 to |resources|
      invariant lines + ResourceLines(resources[i..], previous) == ResourceLines(resources, None)
    {
      var r := resources[i];
      var before := lines;
      if previous.Some? && r.role != previous.value { lines := lines + [""]; }
      lines := lines + BlockLines(r);
      assert resources[i..][1..] == resources[i + 1..];
      ResourceLinesStep(before, resources[i..], previous);
      previous := Some(r.role);
    }
    NoLines(previous);
    assert lines + [] == lines;
  }

  lemma ResourceLinesStep(before: seq<string>, rs: seq<ManifestResource>, previous: Option<Role>)
    requires rs != []
    ensures before + ResourceLines(rs, previous) ==
      (if previous.Some? && rs[0].role != previous.value then before + [""] + BlockLines(rs[0])
        else before + BlockLines(rs[0]))
      + ResourceLines(rs[1..], Some(rs[0].role))
  {
    hide *;
    ResourceLinesFirst(rs, previous);
    var gap := if previous.Some? && rs[0].role != previous.value then [""] else [];
    var block, rest := BlockLines(rs[0]), ResourceLines(rs[1..], Some(rs[0].role));
    assert before + [] == before;
    ConcatAssociative(before, gap + block, rest);
    ConcatAssociative(before, gap, block);
  }

  lemma ResourceLinesFirst(rs: seq<ManifestResource>, previous: Option<Role>)
    requires rs != []
    ensures ResourceLines(rs, previous) ==
      (if previous.Some? && rs[0].role != previous.value then [""] else []) + BlockLines(rs[0])
      + ResourceLines(rs[1..], Some(rs[0].role))
  {
    hide BlockLines;
  }

  method RenderWheels(names: seq<string>) returns (lines: seq<string>)
    ensures lines == WheelLines(names)
  {
    hide *;
    lines := [];
    assert names[0..] == names;
    assert [] + WheelLines(names) == WheelLines(names);
    for i := 0 to |names|
      invariant lines + WheelLines(names[i..]) == WheelLines(names)
    {
      assert names[i..] == [names[i]] + names[i + 1..];
      WheelLinesStep(lines, names[i], names[i + 1..]);
      lines := lines + ["    " + names[i]];
    }
    WheelLinesEnd();
    assert names[|names|..] == [] && lines + [] == lines;
  }

  lemma WheelLinesStep(before: seq<string>, n: string, rest: seq<string>)
    ensures before + WheelLines([n] + rest) == before + ["    " + n] + WheelLines(rest)
  {
    assert ([n] + rest)[1..] == rest;
  }

  lemma WheelLinesEnd()
    ensures WheelLines([]) == []
  {
  }

  /** The verifier gives a verdict on the text, and flags exactly these names. */
  predicate Flags(text: string, filename: Filename, names: set<string>) {
    Verify(text, filename).Ok? && Verify(text, filename).value.violations == names
  }

  lemma FlagsIs(text: string, filename: Filename)
    ensures Verify(text, filename).Ok? ==> Flags(text, filename, Verify(text, filename).value.violations)
  {
    hide Verify;
  }

  /** What verifying the rendered text comes to: its error, the violations it flags, or the text itself. */
  function Released(m: Manifest, filename: Filename): (r: Result<string>) {
    var v := Verify(Render(m), filename);
    if v.Err? then Err(v.error)
    else if v.value.violations != {} then Err(UNSAFE_ROUTES(v.value.violations))
    else Ok(Render(m))
  }

  lemma ReleasedIs(m: Manifest, filename: Filename)
    ensures var r, v := Released(m, filename), Verify(Render(m), filename);
      && (r.Ok? <==> v.Ok? && v.value.violations == {}) && (r.Ok? ==> r.value == Render(m))
      && (v.Err? ==> r == Err(v.error))
      && (v.Ok? && r.Err? ==> r.error.UNSAFE_ROUTES? && r.error.names == v.value.violations)
  {
    hide Verify, Render;
  }

  /** Rendering, then verifying. The text is the rendered manifest. It is refused when a resource is
      unreadable, and otherwise accepted exactly when the verdict on it is; what the verdict flags is blamed. */
  method GenerateFormula(m: Manifest, filename: Filename) returns (r: Result<string>)
    requires Accepted(m)
    ensures r.Ok? ==> r.value == Render(m)
    ensures !AllReadable(m, filename) ==> r == Err(Blame(m.resources[FirstUnreadable(m.resources, filename)]))
    ensures AllReadable(m, filename) ==>
      (r.Ok? <==>
         && InstallRead(m).Ok? && DeclaredExactly(m, filename)
         && (m.declared == [] || (VirtualenvWord() !in m.declared && ApprovedRoute(InstallRead(m).value))))
    ensures AllReadable(m, filename) && HeaderInstallsNothing(m) ==>
      (r.Ok? <==> DeclaredExactly(m, filename) && VirtualenvWord() !in m.declared)
    ensures AllReadable(m, filename) && InstallRead(m).Err? ==> r == Err(InstallRead(m).error)
    ensures AllReadable(m, filename) && InstallRead(m).Ok? && r.Err? ==>
      r.error.UNSAFE_ROUTES? && Flags(Render(m), filename, r.error.names)
  {
    hide *;
    FlagsIs(Render(m), filename);
    r := VerifyRendered(m, filename);
    ReleasedIs(m, filename);
    ParseUndoesRender(m, filename);
    UnreadableExists(m, filename);
    VerifyFails(Render(m), filename);
    if AllReadable(m, filename) {
      VerdictExact(m, filename);
      if HeaderInstallsNothing(m) { VerdictOnRender(m, filename); }
    }
  }

  method VerifyRendered(m: Manifest, filename: Filename) returns (r: Result<string>)
    ensures r == Released(m, filename)
  {
    hide *;
    var names := RenderWheels(Sort(m.declared, StrLe));
    var blocks := RenderResources(m.resources);
    var after := blocks + ([""] + (InstallLines(m) + TestLines()));
    var lines := Comments(m) + (Header(m) + ([WheelsOpen()] + (names + (["  ].freeze", ""] + after))));
    FormulaLinesAre(m);
    RenderIs(m);
    var generated := Unlines(lines);
    var v := VerifyFormula(generated, filename);
    ReleasedOf(m, filename);
    if v.Err? { return Err(v.error); }
    if v.value.violations != {} { return Err(UNSAFE_ROUTES(v.value.violations)); }
    return Ok(generated);
  }

  lemma ReleasedOf(m: Manifest, filename: Filename)
    ensures var v := Verify(Render(m), filename);
      Released(m, filename) ==
        if v.Err? then Err(v.error)
        else if v.value.violations != {} then Err(UNSAFE_ROUTES(v.value.violations)) else Ok(Render(m))
  {
    hide Verify, Render;
  }

  lemma UnreadableExists(m: Manifest, filename: Filename)
    ensures AllReadable(m, filename) <==> FirstUnreadable(m.resources, filename) == |m.resources|
  {
    hide Readable;
    var k := FirstUnreadable(m.resources, filename);
    if k < |m.resources| { assert m.resources[k] in m.resources; }
  }

  lemma VerifyFails(text: string, filename: Filename)
    ensures Parse(text, filename).Err? ==> Verify(text, filename) == Err(Parse(text, filename).error)
  {
    hide Parse, AuditedWheels, CodeLines, ExtractInstall, ApprovedRoute, AnyCallsVirtualenv, SplitOn, PlatformNames,
      Violations;
  }
}
