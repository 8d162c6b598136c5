/** What the line patterns of the formula code match, both ways: a line matches exactly when it is spelled so. */
module FormulaPatterns {
  import opened Options
  import opened PyText
  import opened Formula
  import opened FormulaVerify

  predicate NoQuote(s: string) { forall i :: 0 <= i < |s| ==> !IsQuote(s[i]) }

  // ----- archives -----

  function SdistSuffixes(): seq<string> { [".tar.gz", ".tar.bz2", ".tar.xz", ".tgz", ".zip"] }

  /** What is no wheel is a source archive exactly by its suffix, and otherwise of no known kind. */
  lemma SdistIff(filename: string)
    requires !EndsWith(filename, ".whl")
    ensures ClassifyFilename(filename) ==
      if exists i :: 0 <= i < 5 && EndsWith(filename, SdistSuffixes()[i]) then Some(SDIST) else None
  {
    hide EndsWith;
    var x := SdistSuffixes();
    assert x[0] == ".tar.gz" && x[1] == ".tar.bz2" && x[2] == ".tar.xz" && x[3] == ".tgz" && x[4] == ".zip";
  }

  // ----- leading white space, then a word -----

  lemma {:induction false} SkippedIsSpace(s: string) returns (w: string)
    ensures AllSpace(w) && s == w + SkipWs(s)
  {
    if s != "" && IsSpace(s[0]) {
      var rest := SkippedIsSpace(s[1..]);
      w := [s[0]] + rest;
      assert s == [s[0]] + s[1..];
    } else {
      w := "";
    }
  }

  ghost predicate WordThere(t: string, w: string, word: string, rest: string) {
    AllSpace(w) && t == w + (word + rest)
  }

  lemma AfterIff(t: string, word: string, rest: string)
    requires word != "" && !IsSpace(word[0])
    ensures After(t, word) == Some(rest) <==> exists w :: WordThere(t, w, word, rest)
  {
    if After(t, word) == Some(rest) {
      var w := SkippedIsSpace(t);
      var s := SkipWs(t);
      assert s == word + rest by { assert s == s[..|word|] + s[|word|..]; }
      assert WordThere(t, w, word, rest);
    }
    if w :| WordThere(t, w, word, rest) { AfterOver(w, word, rest); }
  }

  // ----- a quoted value -----

  /** Some white space, a value between two equal quotes, and the rest. */
  ghost predicate QuotesThere(u: string, x: string, q: char, value: string, rest: string) {
    && AllSpace(x) && x != "" && IsQuote(q) && value != "" && NoQuote(value)
    && u == x + ([q] + (value + ([q] + rest)))
  }

  lemma {:induction false} FirstQuoteIs(value: string, q: char, rest: string)
    requires NoQuote(value) && IsQuote(q)
    ensures FirstQuote(value + ([q] + rest)) == |value|
  {
    var s := value + ([q] + rest);
    assert s[|value|] == q;
    if value != "" {
      assert s[0] == value[0] && s[1..] == value[1..] + ([q] + rest);
      FirstQuoteIs(value[1..], q, rest);
    }
  }

  lemma InQuotesMeans(u: string) returns (x: string, q: char)
    requires InQuotes(u).Some?
    ensures QuotesThere(u, x, q, InQuotes(u).value.0, InQuotes(u).value.1)
  {
    hide IsSpace, IsQuote, AllSpace;
    x := SkippedIsSpace(u);
    var v := SkipWs(u);
    q := v[0];
    var k := FirstQuote(v[1..]);
    assert v[1..][k] == v[1 + k];
    assert forall i :: 0 <= i < k ==> v[1..1 + k][i] == v[1..][i];
    assert v == [q] + (v[1..1 + k] + ([q] + v[k + 2..]));
  }

  lemma InQuotesIff(u: string, value: string, rest: string)
    ensures InQuotes(u) == Some((value, rest)) <==> exists x, q :: QuotesThere(u, x, q, value, rest)
  {
    if InQuotes(u) == Some((value, rest)) { var x, q := InQuotesMeans(u); }
    if x, q :| QuotesThere(u, x, q, value, rest) {
      var v := [q] + (value + ([q] + rest));
      FirstQuoteIs(value, q, rest);
      SkipWsOver(x, v);
      assert v[1..] == value + ([q] + rest);
      assert v[1..1 + |value|] == value && v[|value| + 2..] == rest && v[1 + |value|] == q;
    }
  }

  /** The keyword behind nothing but white space, then a quoted value, then the rest. */
  ghost predicate Spelled(line: string, keyword: string, value: string, rest: string) {
    exists w, u, x, q :: WordThere(line, w, keyword, u) && QuotesThere(u, x, q, value, rest)
  }

  lemma QuotedIff(line: string, keyword: string, value: string, rest: string)
    requires keyword != "" && !IsSpace(keyword[0])
    ensures Quoted(line, keyword) == Some((value, rest)) <==> Spelled(line, keyword, value, rest)
  {
    hide After, InQuotes, WordThere, QuotesThere, IsSpace;
    if Quoted(line, keyword) == Some((value, rest)) {
      var u := After(line, keyword).value;
      AfterIff(line, keyword, u);
      InQuotesIff(u, value, rest);
      var w :| WordThere(line, w, keyword, u);
      var x, q :| QuotesThere(u, x, q, value, rest);
    }
    if w, u, x, q :| WordThere(line, w, keyword, u) && QuotesThere(u, x, q, value, rest) {
      AfterIff(line, keyword, u);
      InQuotesIff(u, value, rest);
    }
  }

  /** A `url` or `sha256` line ends after its value, but for white space. */
  lemma FieldIff(line: string, keyword: string, value: string)
    requires keyword in {"url", "sha256"}
    ensures Field(line, keyword) == Some(value) <==>
      exists rest :: AllSpace(rest) && Spelled(line, keyword, value, rest)
  {
    hide Quoted, Spelled, AllSpace;
    if Field(line, keyword) == Some(value) { QuotedIff(line, keyword, value, Quoted(line, keyword).value.1); }
    if rest :| AllSpace(rest) && Spelled(line, keyword, value, rest) { QuotedIff(line, keyword, value, rest); }
  }

  /** White space, `do`, and nothing more but white space. */
  ghost predicate DoThere(rest: string, y: string, z: string) {
    AllSpace(y) && y != "" && AllSpace(z) && rest == y + ("do" + z)
  }

  lemma DoIff(rest: string)
    ensures (var t := SkipWs(rest); |t| < |rest| && StartsWith(t, "do") && AllSpace(t[2..])) <==>
      exists y, z :: DoThere(rest, y, z)
  {
    var t := SkipWs(rest);
    if |t| < |rest| && StartsWith(t, "do") && AllSpace(t[2..]) {
      var y := SkippedIsSpace(rest);
      assert t == "do" + t[2..];
      assert DoThere(rest, y, t[2..]);
    }
    if y, z :| DoThere(rest, y, z) {
      SkipWsOver(y, "do" + z);
      assert ("do" + z)[2..] == z && ("do" + z)[..2] == "do";
    }
  }

  /** A resource block opens with its quoted name and `do`. */
  lemma StartIff(line: string, name: string)
    ensures ResourceStart(line) == Some(name) <==>
      exists rest, y, z :: Spelled(line, "resource", name, rest) && DoThere(rest, y, z)
  {
    hide Quoted, Spelled, AllSpace, SkipWs, StartsWith, DoThere;
    if ResourceStart(line) == Some(name) {
      var rest := Quoted(line, "resource").value.1;
      QuotedIff(line, "resource", name, rest);
      DoIff(rest);
      var y, z :| DoThere(rest, y, z);
    }
    if rest, y, z :| Spelled(line, "resource", name, rest) && DoThere(rest, y, z) {
      QuotedIff(line, "resource", name, rest);
      DoIff(rest);
    }
  }

  /** A block ends at the word `end` alone on its line. */
  lemma EndIff(line: string)
    ensures IsEnd(line) <==> exists w, z :: AllSpace(z) && WordThere(line, w, "end", z)
  {
    var t := SkipWs(line);
    if IsEnd(line) {
      var w := SkippedIsSpace(line);
      assert t == "end" + t[3..];
      assert WordThere(line, w, "end", t[3..]);
    }
    if w, z :| AllSpace(z) && WordThere(line, w, "end", z) {
      SkipWsOver(w, "end" + z);
      assert ("end" + z)[3..] == z && ("end" + z)[..3] == "end";
    }
  }

  // ----- the verifier's patterns -----

  ghost predicate IsComment(line: string) { exists w, rest :: WordThere(line, w, "#", rest) }

  /** Of any line in any text the code has that line, unless `#` is its first character that is no white space. */
  lemma {:induction false} EachLineAlone(before: seq<string>, line: string, after: seq<string>)
    ensures Uncommented(before + [line] + after) ==
      Uncommented(before) + (if IsComment(line) then [] else [line]) + Uncommented(after)
  {
    hide IsComment;
    var all := before + [line] + after;
    if before == [] {
      CommentIff(line);
      assert all[0] == line && all[1..] == after;
    } else {
      assert all[0] == before[0] && all[1..] == before[1..] + [line] + after;
      EachLineAlone(before[1..], line, after);
    }
  }

  lemma CommentIff(line: string)
    ensures LineStarts(line, "#") <==> IsComment(line)
  {
    hide WordThere;
    if LineStarts(line, "#") { AfterIff(line, "#", After(line, "#").value); }
    if w, rest :| WordThere(line, w, "#", rest) { AfterIff(line, "#", rest); }
  }

  /** The automatic route is called by its word at the start of a line, with the end of the line, white space or an
      opening parenthesis after it. */
  lemma CallIff(line: string)
    ensures CallsVirtualenv(line) <==>
      exists w, rest :: WordThere(line, w, VirtualenvWord(), rest) && (rest == "" || IsSpace(rest[0]) || rest[0] == '(')
  {
    hide WordThere, IsSpace;
    assert VirtualenvWord()[0] == 'v';
    VisNoSpace();
    if CallsVirtualenv(line) { AfterIff(line, VirtualenvWord(), After(line, VirtualenvWord()).value); }
    if w, rest :| WordThere(line, w, VirtualenvWord(), rest) && (rest == "" || IsSpace(rest[0]) || rest[0] == '(') {
      AfterIff(line, VirtualenvWord(), rest);
    }
  }

  lemma VisNoSpace()
    ensures !IsSpace('v')
  {
  }

  function Openers(): seq<string> { ["def ", "if ", "unless ", "case ", "begin", "while ", "until ", "for "] }

  /** A nested block opens with one of Ruby's words, or with `do` at the end or before a bar. */
  lemma OpensIff(s: string)
    ensures Opens(s) <==>
      || (exists i :: 0 <= i < 8 && StartsWith(s, Openers()[i])) || EndsWith(s, " do") || Contains(s, " do |")
  {
    hide StartsWith, EndsWith, Contains;
    var o := Openers();
    assert o[0] == "def " && o[1] == "if " && o[2] == "unless " && o[3] == "case ";
    assert o[4] == "begin" && o[5] == "while " && o[6] == "until " && o[7] == "for ";
  }

  /** The install method starts at the first line that is `def install`; without one there is no body. */
  lemma {:induction false} InstallStarts(lines: seq<string>)
    ensures var k := FindInstall(lines);
      && (k < |lines| ==> Strip(lines[k]) == "def install")
      && (forall i :: 0 <= i < k ==> Strip(lines[i]) != "def install")
      && (k == |lines| ==> ExtractInstall(lines) == Ok([]))
      && (k < |lines| ==>
            var body := InstallBody(lines[k + 1..], 1);
            ExtractInstall(lines) == if body.Some? then Ok(body.value) else Err(UNTERMINATED_INSTALL))
    decreases |lines|
  {
    hide Strip, InstallBody;
    if lines != [] && Strip(lines[0]) != "def install" {
      InstallStarts(lines[1..]);
      assert FindInstall(lines) == FindInstall(lines[1..]) + 1;
      assert forall i :: 1 <= i < FindInstall(lines) ==> lines[i] == lines[1..][i - 1];
    }
  }

  // ----- the wheel list -----

  /** White space up to the end of some line. */
  ghost predicate LineEnds(v: string, s: string, r: string) {
    AllSpace(s) && v == s + r && (r == "" || r[0] == '\n')
  }

  lemma {:induction false} EndsLineIff(v: string)
    ensures EndsLine(v) <==> exists s, r :: LineEnds(v, s, r)
  {
    if EndsLine(v) {
      if v == "" || v[0] == '\n' {
        assert LineEnds(v, "", v);
      } else {
        EndsLineIff(v[1..]);
        var s, r :| LineEnds(v[1..], s, r);
        assert LineEnds(v, [v[0]] + s, r);
      }
    }
    if s, r :| LineEnds(v, s, r) {
      if s != "" {
        assert v[0] == s[0] && v[1..] == s[1..] + r;
        assert LineEnds(v[1..], s[1..], r);
        EndsLineIff(v[1..]);
      }
    }
  }

  /** The list closes here: `].freeze` behind nothing but white space, and nothing else on its line. */
  lemma ClosesIff(u: string)
    ensures ClosesList(u) <==> exists w, v, s, r :: WordThere(u, w, "].freeze", v) && LineEnds(v, s, r)
  {
    hide WordThere, LineEnds, After;
    if ClosesList(u) {
      var v := After(u, "].freeze").value;
      AfterIff(u, "].freeze", v);
      EndsLineIff(v);
    }
    if w, v, s, r :| WordThere(u, w, "].freeze", v) && LineEnds(v, s, r) {
      AfterIff(u, "].freeze", v);
      EndsLineIff(v);
    }
  }

  /** The names end where the list closes first. */
  lemma {:induction false} RegionIs(u: string)
    ensures Region(u).None? <==> forall i :: 0 <= i <= |u| ==> !ClosesList(u[i..])
    ensures Region(u).Some? ==>
      var n := |Region(u).value|;
      && n <= |u| && Region(u).value == u[..n] && ClosesList(u[n..]) && forall i :: 0 <= i < n ==> !ClosesList(u[i..])
  {
    hide ClosesList;
    assert u[0..] == u;
    if u != "" && !ClosesList(u) {
      RegionIs(u[1..]);
      forall i | 0 <= i <= |u[1..]| ensures u[1..][i..] == u[i + 1..] {}
      forall i | 1 <= i <= |u| ensures ClosesList(u[i..]) <==> ClosesList(u[1..][i - 1..]) {}
      if Region(u[1..]).Some? { assert u[..|Region(u).value|] == [u[0]] + u[1..][..|Region(u[1..]).value|]; }
    }
  }

  /** The list's word, an equals sign and the opening of a list of words, with white space between them or none. */
  ghost predicate ListOpens(t: string, u: string) {
    exists w, a, x, b, y ::
      WordThere(t, w, WheelsWord(), a) && WordThere(a, x, "=", b) && WordThere(b, y, "%w[", u)
  }

  lemma MatchIff(t: string, names: string)
    ensures MatchWheels(t) == Some(names) <==> exists u :: ListOpens(t, u) && Region(SkipWs(u)) == Some(names)
  {
    hide WordThere, After, Region, SkipWs;
    assert WheelsWord()[0] == 'P' && !IsSpace('P');
    if MatchWheels(t) == Some(names) {
      var a := After(t, WheelsWord()).value;
      var b := After(a, "=").value;
      var u := After(b, "%w[").value;
      AfterIff(t, WheelsWord(), a);
      AfterIff(a, "=", b);
      AfterIff(b, "%w[", u);
      var w :| WordThere(t, w, WheelsWord(), a);
      var x :| WordThere(a, x, "=", b);
      var y :| WordThere(b, y, "%w[", u);
      assert ListOpens(t, u);
    }
    if u :| ListOpens(t, u) && Region(SkipWs(u)) == Some(names) {
      var w, a, x, b, y :| WordThere(t, w, WheelsWord(), a) && WordThere(a, x, "=", b) && WordThere(b, y, "%w[", u);
      AfterIff(t, WheelsWord(), a);
      AfterIff(a, "=", b);
      AfterIff(b, "%w[", u);
    }
  }

  function ListFrom(lines: seq<string>, i: nat): (names: Option<string>)
    requires i <= |lines|
  {
    MatchWheels(JoinLines(lines[i..]))
  }

  /** The list that counts is the first one in the code. */
  lemma {:induction false} FirstListCounts(lines: seq<string>, i: nat)
    requires i <= |lines| && forall k :: 0 <= k < i ==> ListFrom(lines, k).None?
    ensures i == |lines| ==> FindWheels(lines).None?
    ensures i < |lines| && ListFrom(lines, i).Some? ==> FindWheels(lines) == ListFrom(lines, i)
    decreases i
  {
    hide MatchWheels, JoinLines;
    if lines != [] { assert lines[0..] == lines; }
    if i > 0 {
      assert ListFrom(lines, 0).None?;
      forall k | 0 <= k < i - 1 ensures ListFrom(lines[1..], k).None? {
        assert lines[1..][k..] == lines[k + 1..];
        assert ListFrom(lines, k + 1).None?;
      }
      assert lines[1..][i - 1..] == lines[i..];
      FirstListCounts(lines[1..], i - 1);
    }
  }
}
