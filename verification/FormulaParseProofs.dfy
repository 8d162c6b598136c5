/** Parsing undoes rendering, and exactly when.

    The parser reads one line at a time, and a rendered formula is a list of lines, but the two lists
    need not be the same: `splitlines` also breaks at characters a resource URL may contain. The proof
    therefore follows the pieces of each rendered line.

    1. A line is quiet when none of its pieces opens a resource block, and feeding a quiet line to a
       parser that has no open block leaves the parser as it was (`FeedQuiet`). Every line outside the
       resource blocks is quiet: the comments, the header, the wheel list, the install method and the
       test. A value between quotes is quiet whatever it says, because an opening line ends in `do`
       and a piece that ends in the closing quote does not (`QuietQuoted`).

    2. The four lines of a block are read back field by field. The closest quote pair of a name, URL
       or hash line encloses exactly the value that was quoted (`QuotedFound`, `FieldLine`), as long
       as the line is in one piece. A URL with a break leaves an opening quote alone in the first
       piece, so the line matches nothing and the block closes without a URL (`FeedBroken`).

    3. One block moves the parser from its blocks so far to one block more, or to the failure that
       blames this resource (`FeedBlock`, `FeedNext`). By induction the blocks are read in order up
       to the first resource that cannot be read (`FeedResources`).

    4. `ParseUndoesRender` puts quiet lines, blocks and quiet lines together. */
module FormulaParseProofs {
  import opened Options
  import opened Ordering
  import opened PyText
  import opened Formula
  import opened FormulaVerify
  import opened FormulaGenerate

  predicate Quoteless(s: string) { forall i :: 0 <= i < |s| ==> !IsQuote(s[i]) }

  // ----- the shape of quoted lines -----

  lemma TailOfTail(s: string, a: nat, b: nat)
    requires a <= |s| && b <= |s| - a
    ensures s[a..][b..] == s[a + b..]
  {
  }

  /** A match shows two quotes, the value between them, and the rest after the second. */
  lemma InQuotesShape(u: string) returns (x: nat, y: nat)
    requires InQuotes(u).Some?
    ensures x + 1 < y < |u| && IsQuote(u[x]) && IsQuote(u[y])
    ensures InQuotes(u).value == (u[x + 1..y], u[y + 1..])
  {
    hide SkipWs, IsQuote;
    SkipWsTail(u);
    var v := SkipWs(u);
    var k := FirstQuote(v[1..]);
    x := |u| - |v|;
    y := x + 1 + k;
    assert u[x..] == v;
    SliceOfTail(u, x, 1, 1 + k);
    TailOfTail(u, x, k + 2);
    assert v[0] == u[x];
  }

  lemma AfterIs(t: string, w: string)
    requires After(t, w).Some?
    ensures |w| <= |SkipWs(t)| && After(t, w).value == SkipWs(t)[|w|..]
  {
    hide SkipWs;
  }

  lemma AfterIsTail(t: string, w: string) returns (a: nat)
    requires After(t, w).Some?
    ensures a <= |t| && t[a..] == After(t, w).value
  {
    hide *;
    SkipWsTail(t);
    AfterIs(t, w);
    var s := SkipWs(t);
    a := |t| - |s| + |w|;
    TailOfTail(t, |t| - |s|, |w|);
  }

  lemma QuotedShape(line: string, keyword: string) returns (x: nat, y: nat)
    requires Quoted(line, keyword).Some?
    ensures x + 1 < y < |line| && IsQuote(line[x]) && IsQuote(line[y])
    ensures Quoted(line, keyword).value == (line[x + 1..y], line[y + 1..])
  {
    hide After, InQuotes, IsQuote;
    var a := AfterIsTail(line, keyword);
    var u := line[a..];
    x, y := InQuotesShape(u);
    SliceOfTail(line, a, x + 1, y);
    TailOfTail(line, a, y + 1);
    assert u[x] == line[x + a];
    x, y := x + a, y + a;
  }

  lemma InQuotesFound(value: string, rest: string)
    requires value != "" && Quoteless(value)
    ensures InQuotes(" " + ("\"" + (value + ("\"" + rest)))) == Some((value, rest))
  {
    var inner := value + ("\"" + rest);
    var v := "\"" + inner;
    SkipWsOver(" ", v);
    FirstQuoteAt(value, rest);
    assert v[1..] == inner;
    ValueSlices(value, rest);
  }

  lemma ValueSlices(value: string, rest: string)
    ensures var v := "\"" + (value + ("\"" + rest));
      v[1..1 + |value|] == value && v[|value| + 2..] == rest && v[1 + |value|] == '"'
  {
  }

  lemma QuotedFound(w: string, keyword: string, value: string, rest: string)
    requires AllSpace(w) && keyword != "" && !IsSpace(keyword[0]) && value != "" && Quoteless(value)
    ensures Quoted(w + (keyword + (" " + ("\"" + (value + ("\"" + rest))))), keyword) == Some((value, rest))
  {
    hide After, InQuotes, AllSpace, IsSpace, Quoteless;
    AfterOver(w, keyword, " " + ("\"" + (value + ("\"" + rest))));
    InQuotesFound(value, rest);
  }

  lemma {:induction false} FirstQuoteAt(value: string, rest: string)
    requires Quoteless(value)
    ensures FirstQuote(value + ("\"" + rest)) == |value|
  {
    var s := value + ("\"" + rest);
    assert s[|value|] == '"';
    if value == "" {
      assert s[0] == '"';
    } else {
      assert s[0] == value[0] && s[1..] == value[1..] + ("\"" + rest);
      FirstQuoteAt(value[1..], rest);
    }
  }

  lemma NotKeyword(w: string, b: string, keyword: string)
    requires AllSpace(w) && b != "" && !IsSpace(b[0]) && keyword != "" && b[0] != keyword[0]
    ensures Quoted(w + b, keyword).None?
  {
    AfterOther(w, b, keyword);
  }

  lemma DoEnds(rest: string)
    requires StartsWith(rest, "do") && AllSpace(rest[2..])
    ensures rest != "" && rest[|rest| - 1] != '"'
  {
    if |rest| > 2 {
      assert rest[2..][|rest| - 3] == rest[|rest| - 1];
    } else {
      assert rest == "do";
    }
  }

  lemma StartTail(line: string) returns (rest: string)
    requires ResourceStart(line).Some?
    ensures Quoted(line, "resource").Some? && StartsWith(rest, "do") && AllSpace(rest[2..])
    ensures var tail := Quoted(line, "resource").value.1; |rest| <= |tail| && tail[|tail| - |rest|..] == rest
  {
    rest := SkipWs(Quoted(line, "resource").value.1);
    SkipWsTail(Quoted(line, "resource").value.1);
  }

  lemma LastOfTail(s: string, a: nat)
    requires a < |s|
    ensures s[a..] != "" && s[a..][|s| - a - 1] == s[|s| - 1]
  {
  }

  /** A line that opens a resource has two quotes and does not end with one. */
  lemma StartShape(line: string)
    requires ResourceStart(line).Some?
    ensures line != "" && line[|line| - 1] != '"' && Quoted(line, "resource").Some?
  {
    hide *;
    var rest := StartTail(line);
    var x, y := QuotedShape(line, "resource");
    DoEnds(rest);
    var tail := Quoted(line, "resource").value.1;
    LastOfTail(tail, |tail| - |rest|);
    LastOfTail(line, y + 1);
  }

  // ----- lines that open no resource block -----

  predicate Quiet(line: string) {
    '\r' !in line && forall p :: p in Pieces(line) ==> ResourceStart(p).None?
  }

  predicate AllQuiet(lines: seq<string>) { forall x :: x in lines ==> Quiet(x) }

  lemma UnbrokenPieces(line: string)
    requires Unbroken(line)
    ensures Pieces(line) == [line] && '\r' !in line
  {
    hide *;
    SplitPlainLine(line, "");
    PiecesOf(line);
    NoCarriageReturn(line);
    assert [line] + [] == [line];
  }

  lemma NoCarriageReturn(line: string)
    requires Unbroken(line)
    ensures '\r' !in line
  {
  }

  /** A line without breaks whose first word is not `resource`. */
  lemma QuietOther(w: string, b: string)
    requires AllSpace(w) && b != "" && !IsSpace(b[0]) && b[0] != 'r' && Unbroken(w + b)
    ensures Quiet(w + b)
  {
    UnbrokenPieces(w + b);
    NotKeyword(w, b, "resource");
  }

  lemma QuietEmpty()
    ensures Quiet("")
  {
    hide *;
    NothingUnbroken();
    UnbrokenPieces("");
    NoQuotesNoStart("");
    OnePiece("");
  }

  /** Breaks inside a quoted value leave pieces that are no match: all but the last have one quote at
      most, and the last one ends with a quote. */
  lemma QuietQuoted(pre: string, value: string, post: string)
    requires Unbroken(pre) && Quoteless(pre) && Quoteless(value) && '\r' !in value && Unbroken(post)
    requires post != "" && post[|post| - 1] == '"'
    ensures Quiet(pre + ("\"" + (value + post)))
  {
    var line := pre + ("\"" + (value + post));
    NoCarriageReturn(pre);
    NoCarriageReturn(post);
    hide Unbroken, Quoteless, Pieces, ResourceStart, IsBreak, IsQuote;
    forall p | p in Pieces(line) ensures ResourceStart(p).None? {
      QuietPiece(pre, value, post, p);
    }
  }

  lemma QuietPiece(pre: string, value: string, post: string, p: string)
    requires Unbroken(pre) && Quoteless(pre) && Quoteless(value) && Unbroken(post)
    requires post != "" && post[|post| - 1] == '"'
    requires var line := pre + ("\"" + (value + post)); '\r' !in line && p in Pieces(line)
    ensures ResourceStart(p).None?
  {
    hide *;
    var line := pre + ("\"" + (value + post));
    var i, j := PieceIsStretch(line, p);
    if ResourceStart(p).Some? {
      StartShape(p);
      if j < |line| {
        BreakIsInValue(pre, value, post, j);
        var x, y := QuotedShape(p, "resource");
        assert p[x] == line[i + x] && p[y] == line[i + y];
        OneQuote(pre, value, post, i + x);
        OneQuote(pre, value, post, i + y);
      } else {
        LastOfLine(pre, value, post, i);
      }
    }
  }

  lemma LastOfLine(pre: string, value: string, post: string, i: nat)
    requires post != ""
    requires var line := pre + ("\"" + (value + post)); i < |line|
    ensures var line := pre + ("\"" + (value + post));
      line[i..|line|][|line| - i - 1] == post[|post| - 1]
  {
  }

  lemma At(pre: string, value: string, post: string, j: nat)
    requires var line := pre + ("\"" + (value + post)); j < |line|
    ensures var line := pre + ("\"" + (value + post));
      line[j] == if j < |pre| then pre[j] else if j == |pre| then '"'
                 else if j <= |pre| + |value| then value[j - |pre| - 1] else post[j - |pre| - 1 - |value|]
  {
  }

  lemma BreakIsInValue(pre: string, value: string, post: string, j: nat)
    requires Unbroken(pre) && Unbroken(post)
    requires var line := pre + ("\"" + (value + post)); j < |line| && IsBreak(line[j])
    ensures |pre| < j <= |pre| + |value|
  {
    At(pre, value, post, j);
  }

  // The only quote before the end of the value is the opening one.
  lemma OneQuote(pre: string, value: string, post: string, k: nat)
    requires Quoteless(pre) && Quoteless(value) && k <= |pre| + |value|
    requires var line := pre + ("\"" + (value + post)); IsQuote(line[k])
    ensures k == |pre|
  {
    At(pre, value, post, k);
  }

  // ----- feeding -----

  lemma {:induction false} FeedPieces(done: seq<Resource>, pieces: seq<string>, filename: Filename)
    requires forall p :: p in pieces ==> ResourceStart(p).None?
    ensures Feed(Reading(done, None), pieces, filename) == Reading(done, None)
  {
    if pieces != [] {
      assert pieces[0] in pieces;
      assert forall p :: p in pieces[1..] ==> p in pieces;
      FeedPieces(done, pieces[1..], filename);
    }
  }

  lemma {:induction false} FeedQuiet(done: seq<Resource>, lines: seq<string>, filename: Filename)
    requires AllQuiet(lines)
    ensures Feed(Reading(done, None), AllPieces(lines), filename) == Reading(done, None)
  {
    if lines != [] {
      assert lines[0] in lines;
      assert forall x :: x in lines[1..] ==> x in lines;
      FeedPieces(done, Pieces(lines[0]), filename);
      FeedQuiet(done, lines[1..], filename);
      FeedConcat(Reading(done, None), Pieces(lines[0]), AllPieces(lines[1..]), filename);
    }
  }

  // ----- the rendered lines -----

  predicate Indents(w: string) { forall i :: 0 <= i < |w| ==> w[i] == ' ' }

  lemma IndentFacts(w: string)
    requires Indents(w)
    ensures AllSpace(w) && Plain(w)
  {
  }

  lemma PlainSpace(b: string)
    requires Plain(b) && b != "" && b[0] != ' '
    ensures !IsSpace(b[0])
  {
  }

  /** A printable line whose first word does not begin with `r`. */
  lemma QuietPlain(w: string, b: string)
    requires Indents(w) && Plain(b) && b != "" && b[0] != ' ' && b[0] != 'r'
    ensures Quiet(w + b) && Unbroken(w + b)
  {
    hide *;
    IndentFacts(w);
    PlainSpace(b);
    PlainConcat(w, b);
    PlainUnbroken(w + b);
    QuietOther(w, b);
  }

  lemma QuoteForm(s: string)
    requires Quotable(s)
    ensures Quote(s) == "\"" + (s + "\"") && Quoteless(s) && '\r' !in s
  {
    EscapeNothing(s);
    assert Quote(s) == "\"" + s + "\"";
  }

  lemma PlainQuote(s: string)
    requires Simple(s)
    ensures Plain(Quote(s)) && Quote(s) != "" && Quote(s)[0] == '"'
  {
    QuoteForm(s);
  }

  /** `word "value"` with any value that can be quoted. */
  lemma QuietField(word: string, value: string)
    requires Plain(word) && Quoteless(word) && Quotable(value)
    ensures Quiet("  " + (word + Quote(value)))
  {
    hide *;
    QuoteForm(value);
    TwoSpaces();
    PlainConcat("  ", word);
    PlainUnbroken("  " + word);
    QuotelessConcat("  ", word);
    OneQuoteMark();
    QuietQuoted("  " + word, value, "\"");
    assert "  " + (word + ("\"" + (value + "\""))) == ("  " + word) + ("\"" + (value + "\""));
  }

  lemma TwoSpaces()
    ensures Indents("") && Indents("  ") && Indents("    ") && Indents("      ") && Indents("           ")
    ensures Plain("  ") && Plain("    ") && Quoteless("  ") && Quoteless("    ")
  {
  }

  lemma OneQuoteMark()
    ensures Plain("\"") && Unbroken("\"")
  {
  }

  lemma QuotelessConcat(a: string, b: string)
    requires Quoteless(a) && Quoteless(b)
    ensures Quoteless(a + b)
  {
  }

  lemma HeaderWords()
    ensures Plain("class ") && Plain(" < Formula") && Plain("desc ") && Plain("sha256 ") && Plain("license ")
    ensures Plain("homepage ") && Plain("url ") && Plain("head ") && Plain(", branch: ")
    ensures Quoteless("homepage ") && Quoteless("url ") && Quoteless("head ")
  {
  }

  lemma DependsWords()
    ensures Plain("include Language::Python::Virtualenv") && Plain("depends_on arch: :arm64")
    ensures Plain("depends_on :macos") && Plain("depends_on ")
  {
  }

  lemma ListWords()
    ensures Plain(WheelsWord() + " = %w[") && Plain("].freeze")
  {
  }

  lemma CommentWords()
    ensures Plain("# uv.lock sha256: ") && Plain("# candidate-pins.json sha256: ")
    ensures Plain("# reviewed commit: ") && Plain("# reviewed release tree sha256: ")
  {
  }

  lemma BannerWords()
    ensures Plain(Banner())
  {
    assert Plain("# This file is generated by ");
    assert Plain("autobrain-generate-formula. ");
    assert Plain("Do not edit.");
  }

  lemma QuietJoin(a: seq<string>, b: seq<string>)
    requires AllQuiet(a) && AllQuiet(b)
    ensures AllQuiet(a + b)
  {
    hide Quiet;
  }

  /** `word "value"` in printable characters. */
  lemma QuietSimple(word: string, value: string)
    requires Plain(word) && word != "" && word[0] != ' ' && word[0] != 'r' && Simple(value)
    ensures Quiet("  " + (word + Quote(value))) && Unbroken("  " + (word + Quote(value)))
  {
    hide *;
    PlainQuote(value);
    PlainConcat(word, Quote(value));
    TwoSpaces();
    assert (word + Quote(value))[0] == word[0];
    QuietPlain("  ", word + Quote(value));
  }

  lemma SimpleIs(s: string)
    requires Simple(s)
    ensures Plain(s) && Quotable(s)
  {
  }

  lemma QuietComment(words: string, value: string)
    requires Plain(words) && words != "" && words[0] == '#' && Plain(value)
    ensures Quiet(words + value) && Unbroken(words + value)
  {
    hide *;
    TwoSpaces();
    PlainConcat(words, value);
    assert "" + (words + value) == words + value && (words + value)[0] == words[0];
    QuietPlain("", words + value);
  }

  lemma BannerStart()
    ensures Banner() != "" && Banner()[0] == '#'
  {
  }

  lemma CommentsQuiet(m: Manifest)
    requires Accepted(m)
    ensures AllQuiet(Comments(m)) && forall x :: x in Comments(m) ==> Unbroken(x)
  {
    hide Quiet, Banner, Unbroken, Plain, Quotable, ResourceOk, ResourceName, Distinct;
    CommentWords();
    BannerWords();
    BannerStart();
    assert Banner() + "" == Banner() && Plain("") by { TwoSpaces(); PlainNothing(); }
    QuietComment(Banner(), "");
    QuietComment("# uv.lock sha256: ", m.uvLockSha256);
    QuietComment("# candidate-pins.json sha256: ", m.pinsSha256);
    QuietComment("# reviewed commit: ", m.reviewedCommit);
    QuietComment("# reviewed release tree sha256: ", m.treeSha256);
  }

  lemma PlainNothing()
    ensures Plain("")
  {
  }

  lemma HeadLine(m: Manifest)
    requires Accepted(m)
    ensures Quiet("  " + ("head " + (Quote(m.headUrl) + (", branch: " + Quote(m.headBranch)))))
  {
    var url, branch := m.headUrl, m.headBranch;
    assert Quotable(url) && Simple(branch);
    HeadLineQuiet(url, branch);
  }

  lemma HeadLineQuiet(url: string, branch: string)
    requires Quotable(url) && Simple(branch)
    ensures Quiet("  " + ("head " + (Quote(url) + (", branch: " + Quote(branch)))))
  {
    hide *;
    HeaderWords();
    TwoSpaces();
    OneQuoteMark();
    QuoteForm(url);
    SimpleIs(branch);
    QuoteForm(branch);
    PlainConcat("  ", "head ");
    PlainUnbroken("  " + "head ");
    QuotelessConcat("  ", "head ");
    PlainQuote(branch);
    PlainConcat(", branch: ", Quote(branch));
    PlainConcat("\"", ", branch: " + Quote(branch));
    var post := "\"" + (", branch: " + Quote(branch));
    PlainUnbroken(post);
    assert post[|post| - 1] == '"';
    QuietQuoted("  " + "head ", url, post);
    assert "  " + ("head " + (("\"" + (url + "\"")) + (", branch: " + Quote(branch)))) ==
      ("  " + "head ") + ("\"" + (url + post));
  }

  lemma HeaderQuiet(m: Manifest)
    requires Accepted(m)
    ensures AllQuiet(Header(m))
  {
    hide Quiet, Unbroken, Plain, Quotable, ResourceOk, ResourceName, Distinct, Quote, Quoteless, Indents, PythonName;
    PythonIsSimple(m.python);
    HeaderWords();
    DependsWords();
    TwoSpaces();
    QuietEmpty();
    PlainConcat(m.className, " < Formula");
    PlainConcat("class ", m.className + " < Formula");
    var class_ := "class " + (m.className + " < Formula");
    assert class_[0] == 'c' && "" + class_ == class_;
    QuietPlain("", class_);
    QuietPlain("  ", "include Language::Python::Virtualenv");
    QuietSimple("desc ", m.description);
    QuietField("homepage ", m.homepage);
    QuietField("url ", m.sourceUrl);
    QuietSimple("sha256 ", m.sourceSha256);
    QuietSimple("license ", m.license);
    HeadLine(m);
    QuietPlain("  ", "depends_on arch: :arm64");
    QuietPlain("  ", "depends_on :macos");
    QuietSimple("depends_on ", m.python);
  }

  lemma NoQuotesNoStart(line: string)
    requires Quoteless(line)
    ensures ResourceStart(line).None?
  {
    if ResourceStart(line).Some? {
      StartShape(line);
      var x, y := QuotedShape(line, "resource");
    }
  }

  lemma QuietNoQuotes(w: string, b: string)
    requires Indents(w) && Plain(b) && Quoteless(b)
    ensures Quiet(w + b) && Unbroken(w + b)
  {
    hide *;
    IndentFacts(w);
    IndentQuoteless(w);
    PlainConcat(w, b);
    PlainUnbroken(w + b);
    QuotelessConcat(w, b);
    NoQuotesNoStart(w + b);
    UnbrokenPieces(w + b);
    OnePiece(w + b);
  }

  lemma IndentQuoteless(w: string)
    requires Indents(w)
    ensures Quoteless(w)
  {
  }

  lemma OnePiece(line: string)
    requires '\r' !in line && Pieces(line) == [line] && ResourceStart(line).None?
    ensures Quiet(line)
  {
  }

  lemma NameIsPlain(n: string)
    requires ResourceName(n)
    ensures Simple(n) && Quoteless(n) && IsWord(n) && n[0] != ']' && Quotable(n)
    ensures forall i :: 0 <= i < |n| ==> n[i] != ']'
  {
  }

  lemma {:induction false} WheelLinesQuiet(names: seq<string>)
    requires forall n :: n in names ==> ResourceName(n)
    ensures AllQuiet(WheelLines(names)) && forall x :: x in WheelLines(names) ==> Unbroken(x)
  {
    hide Quiet, Unbroken, ResourceName, Plain, Quoteless, Indents;
    if names != [] {
      assert names[0] in names;
      NameIsPlain(names[0]);
      SimpleIs(names[0]);
      TwoSpaces();
      QuietNoQuotes("    ", names[0]);
      WheelLinesQuiet(names[1..]);
    }
  }

  lemma ListLinesQuiet()
    ensures AllQuiet([WheelsOpen()]) && AllQuiet(["  ].freeze", ""]) && AllQuiet([""])
    ensures Unbroken(WheelsOpen()) && Unbroken("  ].freeze") && Unbroken("")
  {
    hide Quiet, WheelsWord, Unbroken, Plain;
    ListWords();
    TwoSpaces();
    WheelsStart();
    QuietPlain("  ", WheelsWord() + " = %w[");
    QuietPlain("  ", "].freeze");
    assert "  " + "].freeze" == "  ].freeze";
    QuietEmpty();
    NothingUnbroken();
  }

  lemma NothingUnbroken()
    ensures Unbroken("") && Quoteless("")
  {
  }

  lemma WheelsStart()
    ensures (WheelsWord() + " = %w[") != "" && (WheelsWord() + " = %w[")[0] == 'P'
  {
  }

  lemma InstallWords()
    ensures Plain("def install") && Quoteless("def install") && Plain("end") && Quoteless("end") && Plain(")")
    ensures Plain(CreateWord()) && CreateWord() != "" && CreateWord()[0] == 'v'
  {
  }

  /** Printable and without quotes. */
  predicate Bare(s: string)
    ensures Bare(s) ==> Plain(s) && Quoteless(s)
  {
    forall i :: 0 <= i < |s| ==> ' ' <= s[i] <= '~' && !IsQuote(s[i])
  }

  lemma RouteWords1()
    ensures Bare("resources.each do |res|") && Bare("name = res.name") && Bare("end")
  {
  }

  lemma RouteWords2()
    ensures Bare("wheel = resource(name).cached_download") && Bare("venv.pip_install wheel")
  {
  }

  lemma RouteWords()
    ensures |RouteLines()| == 5
    ensures forall i :: 0 <= i < 5 ==> Plain(RouteLines()[i]) && Quoteless(RouteLines()[i])
  {
    hide Plain, Quoteless;
    RouteWords1();
    RouteWords2();
  }

  lemma LinkWords1()
    ensures Bare("venv.pip_install_and_link buildpath, ")
  {
  }

  lemma LinkWords2()
    ensures Bare("build_isolation: false")
  {
  }

  lemma LinkWords()
    ensures Plain(LinkLine()) && Quoteless(LinkLine())
  {
    hide Plain, Quoteless;
    LinkWords1();
    LinkWords2();
    PlainConcat("venv.pip_install_and_link buildpath, ", "build_isolation: false");
    QuotelessConcat("venv.pip_install_and_link buildpath, ", "build_isolation: false");
  }

  lemma {:induction false} RemovedSimple(s: string, c: char)
    requires Simple(s)
    ensures Simple(Removed(s, c))
  {
    if s != "" {
      assert forall i :: 0 <= i < |s[1..]| ==> s[1..][i] == s[i + 1];
      RemovedSimple(s[1..], c);
    }
  }

  lemma CreateLinePlain(m: Manifest)
    requires Simple(m.python)
    ensures Plain(CreateLine(m)) && CreateLine(m) != "" && CreateLine(m)[0] == 'v'
  {
    hide Plain, Simple, Quote, CreateWord;
    InstallWords();
    RemovedSimple(m.python, '@');
    PlainQuote(Removed(m.python, '@'));
    PlainConcat(Quote(Removed(m.python, '@')), ")");
    PlainConcat(CreateWord(), Quote(Removed(m.python, '@')) + ")");
  }

  lemma InstallQuiet(m: Manifest)
    requires Simple(m.python)
    ensures AllQuiet(InstallLines(m)) && forall x :: x in InstallLines(m) ==> Unbroken(x)
  {
    hide Quiet, Unbroken, Plain, Quoteless, Indents, Simple, CreateLine, RouteLines, LinkLine;
    InstallWords();
    RouteWords();
    LinkWords();
    TwoSpaces();
    CreateLinePlain(m);
    QuietNoQuotes("  ", "def install");
    QuietPlain("    ", CreateLine(m));
    QuietNoQuotes("    ", RouteLines()[0]);
    QuietNoQuotes("      ", RouteLines()[1]);
    QuietNoQuotes("      ", RouteLines()[2]);
    QuietNoQuotes("      ", RouteLines()[3]);
    QuietNoQuotes("    ", RouteLines()[4]);
    QuietNoQuotes("    ", LinkLine());
    QuietNoQuotes("  ", "end");
  }

  lemma TestWords()
    ensures Plain("test do") && Plain("assert_match \"Usage\", ") && Plain("shell_output(bin/\"autobrain --help\")")
    ensures Plain("assert_match \"checks\", ")
  {
  }

  lemma MoreTestWords()
    ensures Plain("shell_output(bin/\"autobrain doctor --json\")") && Plain("system libexec/\"bin/python\", ")
    ensures Plain("\"-c\",")
  {
  }

  lemma ImportWords()
    ensures Plain(ImportHead()) && Plain(ImportRest()) && ImportHead() != "" && ImportHead()[0] == '"'
  {
    assert Plain("jiter, markupsafe, numpy, ") && Plain("pydantic_core, rpds\"");
  }

  lemma QuietTwo(w: string, a: string, b: string)
    requires Indents(w) && Plain(a) && Plain(b) && a != "" && a[0] != ' ' && a[0] != 'r'
    ensures Quiet(w + (a + b)) && Unbroken(w + (a + b))
  {
    hide *;
    PlainConcat(a, b);
    assert (a + b)[0] == a[0];
    QuietPlain(w, a + b);
  }

  lemma TestQuiet()
    ensures AllQuiet(TestLines()) && forall x :: x in TestLines() ==> Unbroken(x)
  {
    hide Quiet, Unbroken, Plain, Quoteless, Indents, ImportHead, ImportRest;
    TestWords();
    MoreTestWords();
    ImportWords();
    InstallWords();
    TwoSpaces();
    QuietEmpty();
    NothingUnbroken();
    QuietPlain("  ", "test do");
    QuietTwo("    ", "assert_match \"Usage\", ", "shell_output(bin/\"autobrain --help\")");
    QuietTwo("    ", "assert_match \"checks\", ", "shell_output(bin/\"autobrain doctor --json\")");
    QuietTwo("    ", "system libexec/\"bin/python\", ", "\"-c\",");
    QuietTwo("           ", ImportHead(), ImportRest());
    QuietPlain("  ", "end");
    QuietPlain("", "end");
    assert "" + "end" == "end";
  }

  // ----- one resource block -----

  function Parsed(r: ManifestResource, filename: Filename): (p: Resource)
    requires Classify(r.url, filename).Some?
  {
    Resource(r.name, r.url, r.sha256, Classify(r.url, filename).value)
  }

  /** The block parses: its URL has no line break and a known archive kind. */
  predicate Readable(r: ManifestResource, filename: Filename) {
    Unbroken(r.url) && Classify(r.url, filename).Some?
  }

  function Blame(r: ManifestResource): (e: Error) {
    if !Unbroken(r.url) then NO_URL(r.name) else BAD_ARCHIVE(r.url)
  }

  lemma NameLine(r: ManifestResource)
    requires ResourceOk(r)
    ensures ResourceStart(BlockLines(r)[0]) == Some(r.name) && Unbroken(BlockLines(r)[0])
  {
    hide Plain, Simple, Quoteless, Unbroken, AllSpace, ResourceName, Quotable, Quoted, Quote, Indents;
    TwoSpaces();
    IndentFacts("  ");
    NameIsPlain(r.name);
    QuoteForm(r.name);
    NameLineShape(r.name);
    ResourceWord();
    QuotedFound("  ", "resource", r.name, " do");
    DoMatches();
    PlainQuote(r.name);
    PlainConcat(Quote(r.name), " do");
    PlainConcat("resource ", Quote(r.name) + " do");
    PlainConcat("  ", "resource " + (Quote(r.name) + " do"));
    PlainUnbroken(BlockLines(r)[0]);
  }

  lemma NameLineShape(n: string)
    ensures "  " + ("resource " + (("\"" + (n + "\"")) + " do")) ==
      "  " + ("resource" + (" " + ("\"" + (n + ("\"" + " do")))))
  {
  }

  lemma ResourceWord()
    ensures "resource" != "" && !IsSpace("resource"[0]) && Plain("resource ") && Plain(" do")
  {
  }

  lemma DoMatches()
    ensures var rest := SkipWs(" do"); |rest| < |" do"| && StartsWith(rest, "do") && AllSpace(rest[2..])
  {
    assert " do" == " " + "do";
    SkipWsOver(" ", "do");
  }

  lemma FieldLine(keyword: string, word: string, value: string)
    requires keyword != "" && !IsSpace(keyword[0]) && keyword[0] != 'r' && word == keyword + " "
    requires value != "" && Quotable(value)
    ensures var line := "    " + (word + Quote(value));
      ResourceStart(line).None? && Field(line, keyword) == Some(value)
  {
    hide *;
    var line := "    " + (word + Quote(value));
    TwoSpaces();
    IndentFacts("    ");
    QuoteForm(value);
    FieldLineShape(keyword, value);
    QuotedFound("    ", keyword, value, "");
    WordStart(keyword, Quote(value));
    NotKeyword("    ", word + Quote(value), "resource");
    NoStart(line);
    FieldFound(line, keyword, value);
  }

  lemma WordStart(keyword: string, rest: string)
    requires keyword != ""
    ensures (keyword + " ") + rest != "" && ((keyword + " ") + rest)[0] == keyword[0]
    ensures "resource" != "" && "resource"[0] == 'r'
  {
  }

  lemma NoStart(line: string)
    requires Quoted(line, "resource").None?
    ensures ResourceStart(line).None?
  {
  }

  lemma FieldFound(line: string, keyword: string, value: string)
    requires Quoted(line, keyword) == Some((value, ""))
    ensures Field(line, keyword) == Some(value)
  {
  }

  lemma FieldLineShape(keyword: string, value: string)
    ensures "    " + ((keyword + " ") + ("\"" + (value + "\""))) ==
      "    " + (keyword + (" " + ("\"" + (value + ("\"" + "")))))
  {
    assert "\"" + "" == "\"";
  }

  lemma UrlLine(r: ManifestResource)
    requires ResourceOk(r)
    ensures ResourceStart(BlockLines(r)[1]).None? && Field(BlockLines(r)[1], "url") == Some(r.url)
  {
    hide ResourceStart, Field, Quotable, Quote, ResourceName, Simple;
    assert "url " == "url" + " ";
    FieldLine("url", "url ", r.url);
  }

  lemma ShaLine(r: ManifestResource)
    requires ResourceOk(r)
    ensures var line := BlockLines(r)[2];
      ResourceStart(line).None? && Field(line, "url").None? && Field(line, "sha256") == Some(r.sha256) && Unbroken(line)
  {
    hide ResourceStart, Field, Quotable, Quote, ResourceName, Plain, Unbroken, Quoted, IsSpace, AllSpace, Indents;
    assert "sha256 " == "sha256" + " ";
    var line := BlockLines(r)[2];
    SimpleIs(r.sha256);
    ShaWord();
    FieldLine("sha256", "sha256 ", r.sha256);
    TwoSpaces();
    IndentFacts("    ");
    WordStart("sha256", Quote(r.sha256));
    NotKeyword("    ", "sha256 " + Quote(r.sha256), "url");
    NoField(line, "url");
    PlainQuote(r.sha256);
    HeaderWords();
    PlainConcat("sha256 ", Quote(r.sha256));
    PlainConcat("    ", "sha256 " + Quote(r.sha256));
    PlainUnbroken(line);
  }

  lemma ShaWord()
    ensures "sha256"[0] == 's' && !IsSpace("sha256"[0]) && "url"[0] == 'u'
  {
  }

  lemma NoField(line: string, keyword: string)
    requires Quoted(line, keyword).None?
    ensures Field(line, keyword).None?
  {
  }

  lemma EndLine()
    ensures ResourceStart("  " + "end").None? && Field("  " + "end", "url").None? && Field("  " + "end", "sha256").None?
    ensures IsEnd("  " + "end") && Unbroken("  " + "end")
  {
    hide Quoted;
    SkipWsOver("  ", "end");
    NotKeyword("  ", "end", "resource");
    NotKeyword("  ", "end", "url");
    NotKeyword("  ", "end", "sha256");
  }

  // ----- a URL with a line break in it -----

  // The two quotes of a field line with a quote-free value.
  lemma OnlyTwoQuotes(pre: string, value: string, k: nat)
    requires Quoteless(pre) && Quoteless(value)
    requires var line := pre + ("\"" + (value + "\"")); k < |line| && IsQuote(line[k])
    ensures k == |pre| || k == |pre| + |value| + 1
  {
    At(pre, value, "\"", k);
  }

  lemma BreakShows(pre: string, value: string, i: nat)
    requires !Unbroken(value) && i <= |pre|
    ensures var line := pre + ("\"" + (value + "\"")); !Unbroken(line[i..|line|])
  {
    var line := pre + ("\"" + (value + "\""));
    var k :| 0 <= k < |value| && IsBreak(value[k]);
    At(pre, value, "\"", |pre| + 1 + k);
    assert line[i..|line|][|pre| + 1 + k - i] == value[k];
  }

  /** No piece of the broken line is quoted text. */
  lemma BrokenPiece(pre: string, value: string, p: string, keyword: string)
    requires Quoteless(pre) && Quoteless(value) && !Unbroken(value)
    requires var line := pre + ("\"" + (value + "\"")); '\r' !in line && p in Pieces(line)
    ensures Quoted(p, keyword).None?
  {
    hide *;
    var line := pre + ("\"" + (value + "\""));
    var i, j := PieceIsStretch(line, p);
    if Quoted(p, keyword).Some? {
      var x, y := QuotedShape(p, keyword);
      assert p[x] == line[i + x] && p[y] == line[i + y];
      OnlyTwoQuotes(pre, value, i + x);
      OnlyTwoQuotes(pre, value, i + y);
      assert i <= |pre| && j == |line|;
      BreakShows(pre, value, i);
    }
  }

  lemma UrlLineBroken(r: ManifestResource, p: string, keyword: string)
    requires ResourceOk(r) && !Unbroken(r.url) && p in Pieces(BlockLines(r)[1])
    ensures Quoted(p, keyword).None?
  {
    hide Pieces, Quoted, Unbroken, Quoteless, Quotable, ResourceName, Quote, Simple;
    UrlLineShape(r);
    BrokenPiece("    " + "url ", r.url, p, keyword);
  }

  lemma UrlLineShape(r: ManifestResource)
    requires ResourceOk(r)
    ensures BlockLines(r)[1] == ("    " + "url ") + ("\"" + (r.url + "\"")) && '\r' !in BlockLines(r)[1]
    ensures Quoteless("    " + "url ") && Quoteless(r.url)
  {
    hide Quoteless, Quotable, ResourceName, Quote, Simple;
    QuoteForm(r.url);
    HeaderWords();
    TwoSpaces();
    QuotelessConcat("    ", "url ");
    UrlShape(r.url);
  }

  lemma UrlShape(url: string)
    requires '\r' !in url
    ensures "    " + ("url " + ("\"" + (url + "\""))) == ("    " + "url ") + ("\"" + (url + "\""))
    ensures '\r' !in ("    " + "url ") + ("\"" + (url + "\""))
  {
    assert Plain("    " + "url ") && Plain("\"");
  }

  lemma {:induction false} FeedOpenPieces(done: seq<Resource>, name: string, pieces: seq<string>, filename: Filename)
    requires forall p :: p in pieces ==> ResourceStart(p).None? && Field(p, "url").None? && Field(p, "sha256").None?
    ensures var q := Feed(Reading(done, Some(Block(name, None, None))), pieces, filename);
      q == Failed(NO_URL(name)) || q == Reading(done, Some(Block(name, None, None)))
  {
    hide ResourceStart, Field, IsEnd;
    if pieces != [] {
      var p := Reading(done, Some(Block(name, None, None)));
      assert pieces[0] in pieces;
      assert forall x :: x in pieces[1..] ==> x in pieces;
      if Step(p, pieces[0], filename).Failed? {
        FeedFailed(Step(p, pieces[0], filename), pieces[1..], filename);
      } else {
        FeedOpenPieces(done, name, pieces[1..], filename);
      }
    }
  }

  // ----- feeding one block -----

  lemma FeedLine(p: Parser, line: string, rest: seq<string>, filename: Filename)
    requires Unbroken(line)
    ensures Feed(p, AllPieces([line] + rest), filename) == Feed(Step(p, line, filename), AllPieces(rest), filename)
  {
    hide Feed, Step, Pieces, Unbroken;
    UnbrokenPieces(line);
    PiecesFirst(line, rest);
    FeedNext(p, line, AllPieces(rest), filename);
  }

  lemma FeedNext(p: Parser, line: string, rest: seq<string>, filename: Filename)
    ensures Feed(p, [line] + rest, filename) == Feed(Step(p, line, filename), rest, filename)
  {
    hide Step;
    assert ([line] + rest)[1..] == rest;
  }

  lemma PiecesFirst(line: string, rest: seq<string>)
    ensures AllPieces([line] + rest) == Pieces(line) + AllPieces(rest)
  {
    hide Pieces;
    assert ([line] + rest)[1..] == rest;
  }

  lemma FeedNothing(p: Parser, filename: Filename)
    ensures Feed(p, AllPieces([]), filename) == p
  {
  }

  lemma StepOpens(done: seq<Resource>, line: string, filename: Filename)
    requires ResourceStart(line).Some?
    ensures Step(Reading(done, None), line, filename) ==
      Reading(done, Some(Block(ResourceStart(line).value, None, None)))
  {
    hide ResourceStart;
  }

  lemma StepUrl(done: seq<Resource>, b: Block, line: string, filename: Filename)
    requires ResourceStart(line).None? && Field(line, "url").Some? && b.url.None?
    ensures Step(Reading(done, Some(b)), line, filename) == Reading(done, Some(b.(url := Field(line, "url"))))
  {
    hide ResourceStart, Field, IsEnd;
  }

  lemma StepSha(done: seq<Resource>, b: Block, line: string, filename: Filename)
    requires ResourceStart(line).None? && Field(line, "url").None? && Field(line, "sha256").Some? && b.sha256.None?
    ensures Step(Reading(done, Some(b)), line, filename) == Reading(done, Some(b.(sha256 := Field(line, "sha256"))))
  {
    hide ResourceStart, Field, IsEnd;
  }

  lemma StepEnd(done: seq<Resource>, b: Block, line: string, filename: Filename)
    requires ResourceStart(line).None? && Field(line, "url").None? && Field(line, "sha256").None? && IsEnd(line)
    ensures Step(Reading(done, Some(b)), line, filename) == Close(done, b, filename)
  {
    hide ResourceStart, Field, IsEnd;
  }

  /** What the parser makes of one rendered block. */
  function AfterBlock(done: seq<Resource>, r: ManifestResource, filename: Filename): (p: Parser) {
    if Readable(r, filename) then Reading(done + [Parsed(r, filename)], None) else Failed(Blame(r))
  }

  lemma CloseReadable(done: seq<Resource>, r: ManifestResource, filename: Filename)
    requires ResourceOk(r) && r.name !in Names(done) && Unbroken(r.url)
    ensures Close(done, Block(r.name, Some(r.url), Some(r.sha256)), filename) == AfterBlock(done, r, filename)
  {
    hide Unbroken, Classify, Quotable, Simple, ResourceName, Names;
  }

  lemma FeedBlock(done: seq<Resource>, r: ManifestResource, filename: Filename)
    requires ResourceOk(r) && r.name !in Names(done)
    ensures Feed(Reading(done, None), AllPieces(BlockLines(r)), filename) == AfterBlock(done, r, filename)
  {
    hide *;
    var l := BlockLines(r);
    BlockSize(r);
    NameLine(r);
    StepOpens(done, l[0], filename);
    FeedLine(Reading(done, None), l[0], [l[1], l[2], l[3]], filename);
    assert l == [l[0]] + [l[1], l[2], l[3]] && [l[1], l[2], l[3]] == [l[1]] + [l[2], l[3]];
    var open := Reading(done, Some(Block(r.name, None, None)));
    if Unbroken(r.url) {
      UrlLine(r);
      UrlLineUnbroken(r);
      StepUrl(done, Block(r.name, None, None), l[1], filename);
      FeedLine(open, l[1], [l[2], l[3]], filename);
      FeedShaEnd(done, r, Some(r.url), filename);
      CloseReadable(done, r, filename);
    } else {
      PiecesFirst(l[1], [l[2], l[3]]);
      FeedConcat(open, Pieces(l[1]), AllPieces([l[2], l[3]]), filename);
      FeedBroken(done, r, filename);
      BlameBroken(done, r, filename);
      var q := Feed(open, Pieces(l[1]), filename);
      if q.Failed? {
        FeedFailed(q, AllPieces([l[2], l[3]]), filename);
      } else {
        FeedShaEnd(done, r, None, filename);
        CloseNoUrl(done, r, filename);
      }
    }
  }

  lemma BlockSize(r: ManifestResource)
    ensures |BlockLines(r)| == 4 && BlockLines(r)[3] == "  " + "end"
  {
  }

  lemma UrlLineUnbroken(r: ManifestResource)
    requires ResourceOk(r) && Unbroken(r.url)
    ensures Unbroken(BlockLines(r)[1])
  {
    hide *;
    UrlLineShape(r);
    TwoSpaces();
    HeaderWords();
    OneQuoteMark();
    PlainConcat("    ", "url ");
    PlainUnbroken("    " + "url ");
    UnbrokenConcat(r.url, "\"");
    UnbrokenConcat("\"", r.url + "\"");
    UnbrokenConcat("    " + "url ", "\"" + (r.url + "\""));
  }

  lemma FeedShaEnd(done: seq<Resource>, r: ManifestResource, url: Option<string>, filename: Filename)
    requires ResourceOk(r)
    ensures Feed(Reading(done, Some(Block(r.name, url, None))), AllPieces([BlockLines(r)[2], BlockLines(r)[3]]),
      filename)
         == Close(done, Block(r.name, url, Some(r.sha256)), filename)
  {
    hide *;
    var l := BlockLines(r);
    BlockSize(r);
    ShaLine(r);
    EndLine();
    assert [l[2], l[3]] == [l[2]] + [l[3]] && [l[3]] == [l[3]] + [];
    var b := Block(r.name, url, None);
    StepSha(done, b, l[2], filename);
    FeedLine(Reading(done, Some(b)), l[2], [l[3]], filename);
    StepEnd(done, b.(sha256 := Some(r.sha256)), l[3], filename);
    FeedLine(Reading(done, Some(b.(sha256 := Some(r.sha256)))), l[3], [], filename);
    FeedNothing(Close(done, b.(sha256 := Some(r.sha256)), filename), filename);
  }

  lemma CloseNoUrl(done: seq<Resource>, r: ManifestResource, filename: Filename)
    ensures Close(done, Block(r.name, None, Some(r.sha256)), filename) == Failed(NO_URL(r.name))
  {
  }

  lemma BlameBroken(done: seq<Resource>, r: ManifestResource, filename: Filename)
    requires !Unbroken(r.url)
    ensures AfterBlock(done, r, filename) == Failed(NO_URL(r.name))
  {
  }

  lemma FeedBroken(done: seq<Resource>, r: ManifestResource, filename: Filename)
    requires ResourceOk(r) && !Unbroken(r.url)
    ensures var open := Reading(done, Some(Block(r.name, None, None)));
      var q := Feed(open, Pieces(BlockLines(r)[1]), filename);
      q == Failed(NO_URL(r.name)) || q == open
  {
    hide *;
    BlockSize(r);
    var pieces := Pieces(BlockLines(r)[1]);
    forall p | p in pieces ensures ResourceStart(p).None? && Field(p, "url").None? && Field(p, "sha256").None? {
      UrlLineBroken(r, p, "resource");
      UrlLineBroken(r, p, "url");
      UrlLineBroken(r, p, "sha256");
      NoStart(p);
      NoField(p, "url");
      NoField(p, "sha256");
    }
    FeedOpenPieces(done, r.name, pieces, filename);
  }

  // ----- the whole formula -----

  function FirstUnreadable(rs: seq<ManifestResource>, filename: Filename): (k: nat)
    ensures k <= |rs| && (k < |rs| ==> !Readable(rs[k], filename))
    ensures forall i :: 0 <= i < k ==> Readable(rs[i], filename)
  {
    if rs == [] || !Readable(rs[0], filename) then 0 else 1 + FirstUnreadable(rs[1..], filename)
  }

  function AfterBlocks(done: seq<Resource>, rs: seq<ManifestResource>, filename: Filename): (p: Parser)
    decreases |rs|
  {
    if rs == [] then Reading(done, None)
    else if Readable(rs[0], filename) then AfterBlocks(done + [Parsed(rs[0], filename)], rs[1..], filename)
    else Failed(Blame(rs[0]))
  }

  /** Every resource is fit to render and its name is new. */
  ghost predicate Fresh(done: seq<Resource>, rs: seq<ManifestResource>) {
    && (forall r :: r in rs ==> ResourceOk(r) && r.name !in Names(done))
    && (forall i, j :: 0 <= i < j < |rs| ==> rs[i].name != rs[j].name)
  }

  lemma FreshNext(done: seq<Resource>, rs: seq<ManifestResource>, p: Resource)
    requires Fresh(done, rs) && rs != [] && p.name == rs[0].name
    ensures ResourceOk(rs[0]) && rs[0].name !in Names(done) && Fresh(done + [p], rs[1..])
  {
    hide ResourceOk, Names;
    NamesAppend(done, p);
    assert rs[0] in rs;
    forall r | r in rs[1..] ensures ResourceOk(r) && r.name !in Names(done + [p]) {
      var k :| 0 <= k < |rs| - 1 && rs[1..][k] == r;
      assert rs[k + 1] == r && rs[0].name != rs[k + 1].name;
    }
  }

  lemma RoleGap(rs: seq<ManifestResource>, previous: Option<Role>) returns (gap: seq<string>)
    requires rs != []
    ensures ResourceLines(rs, previous) == gap + (BlockLines(rs[0]) + ResourceLines(rs[1..], Some(rs[0].role)))
    ensures AllQuiet(gap)
  {
    hide Quiet, BlockLines;
    ListLinesQuiet();
    gap := if previous.Some? && rs[0].role != previous.value then [""] else [];
    ConcatAssociative(gap, BlockLines(rs[0]), ResourceLines(rs[1..], Some(rs[0].role)));
  }

  lemma AfterBlocksStep(done: seq<Resource>, rs: seq<ManifestResource>, filename: Filename)
    requires rs != []
    ensures AfterBlocks(done, rs, filename) ==
      (if Readable(rs[0], filename) then AfterBlocks(done + [Parsed(rs[0], filename)], rs[1..], filename)
       else AfterBlock(done, rs[0], filename))
    ensures Readable(rs[0], filename) ==>
      AfterBlock(done, rs[0], filename) == Reading(done + [Parsed(rs[0], filename)], None)
    ensures !Readable(rs[0], filename) ==> AfterBlock(done, rs[0], filename).Failed?
    ensures Readable(rs[0], filename) ==>
      Classify(rs[0].url, filename).Some? && Parsed(rs[0], filename).name == rs[0].name
  {
  }

  lemma {:induction false} FeedResources(
    done: seq<Resource>, rs: seq<ManifestResource>, previous: Option<Role>, filename: Filename)
    requires Fresh(done, rs)
    ensures Feed(Reading(done, None), AllPieces(ResourceLines(rs, previous)), filename) ==
      AfterBlocks(done, rs, filename)
    decreases |rs|
  {
    hide *;
    var start := Reading(done, None);
    if rs == [] {
      NoBlocks(done, previous, filename);
    } else {
      var gap := RoleGap(rs, previous);
      var block, rest := BlockLines(rs[0]), ResourceLines(rs[1..], Some(rs[0].role));
      AllPiecesConcat(gap, block + rest);
      AllPiecesConcat(block, rest);
      FeedConcat(start, AllPieces(gap), AllPieces(block) + AllPieces(rest), filename);
      FeedQuiet(done, gap, filename);
      FeedConcat(start, AllPieces(block), AllPieces(rest), filename);
      FreshNext(done, rs, Resource(rs[0].name, "", "", SDIST));
      FeedBlock(done, rs[0], filename);
      AfterBlocksStep(done, rs, filename);
      if Readable(rs[0], filename) {
        var p := Parsed(rs[0], filename);
        FreshNext(done, rs, p);
        FeedResources(done + [p], rs[1..], Some(rs[0].role), filename);
      } else {
        FeedFailed(AfterBlock(done, rs[0], filename), AllPieces(rest), filename);
      }
    }
  }

  lemma NoBlocks(done: seq<Resource>, previous: Option<Role>, filename: Filename)
    ensures Feed(Reading(done, None), AllPieces(ResourceLines([], previous)), filename) ==
      AfterBlocks(done, [], filename)
  {
  }

  lemma {:induction false} AfterBlocksOutcome(done: seq<Resource>, rs: seq<ManifestResource>, filename: Filename)
    ensures var k := FirstUnreadable(rs, filename);
      AfterBlocks(done, rs, filename) ==
        if k == |rs| then Reading(done + ParsedUpTo(rs, filename), None) else Failed(Blame(rs[k]))
    decreases |rs|
  {
    hide Classify, Unbroken, Parsed;
    if rs == [] {
      assert done + [] == done;
    } else if Readable(rs[0], filename) {
      var p := Parsed(rs[0], filename);
      AfterBlocksOutcome(done + [p], rs[1..], filename);
      assert done + [p] + ParsedUpTo(rs[1..], filename) == done + ([p] + ParsedUpTo(rs[1..], filename));
    }
  }

  // The parsed form of the leading readable resources.
  function ParsedUpTo(rs: seq<ManifestResource>, filename: Filename): (r: seq<Resource>) {
    if rs == [] || !Readable(rs[0], filename) then [] else [Parsed(rs[0], filename)] + ParsedUpTo(rs[1..], filename)
  }

  /** One parsed resource for each manifest resource, with its name, URL, hash and archive kind. */
  lemma {:induction false} ParsedUpToExact(rs: seq<ManifestResource>, filename: Filename)
    ensures |ParsedUpTo(rs, filename)| == FirstUnreadable(rs, filename)
    ensures forall i :: 0 <= i < FirstUnreadable(rs, filename) ==>
      ParsedUpTo(rs, filename)[i] == Parsed(rs[i], filename)
  {
    hide Classify, Unbroken, Parsed;
    if rs != [] && Readable(rs[0], filename) { ParsedUpToExact(rs[1..], filename); }
  }

  lemma LinesQuiet(m: Manifest) returns (before: seq<string>, after: seq<string>)
    requires Accepted(m)
    ensures AllQuiet(before) && AllQuiet(after)
    ensures FormulaLines(m) == before + (ResourceLines(m.resources, None) + after)
  {
    hide *;
    CommentsQuiet(m);
    HeaderQuiet(m);
    ListLinesQuiet();
    DeclaredQuiet(m);
    PythonSimple(m);
    InstallQuiet(m);
    TestQuiet();
    QuietJoin(WheelLines(Sort(m.declared, StrLe)), ["  ].freeze", ""]);
    QuietJoin([WheelsOpen()], WheelLines(Sort(m.declared, StrLe)) + ["  ].freeze", ""]);
    QuietJoin(Header(m), [WheelsOpen()] + (WheelLines(Sort(m.declared, StrLe)) + ["  ].freeze", ""]));
    before := Comments(m) + (Header(m) + ([WheelsOpen()] + (WheelLines(Sort(m.declared, StrLe)) + ["  ].freeze", ""])));
    QuietJoin(Comments(m), Header(m) + ([WheelsOpen()] + (WheelLines(Sort(m.declared, StrLe)) + ["  ].freeze", ""])));
    QuietJoin(InstallLines(m), TestLines());
    after := [""] + (InstallLines(m) + TestLines());
    QuietJoin([""], InstallLines(m) + TestLines());
    FormulaLinesAre(m);
    Regroup5(Comments(m), Header(m), [WheelsOpen()], WheelLines(Sort(m.declared, StrLe)), ["  ].freeze", ""],
             ResourceLines(m.resources, None) + after);
  }

  lemma FormulaLinesAre(m: Manifest)
    ensures FormulaLines(m) ==
      Comments(m) + (Header(m) + ([WheelsOpen()] + (WheelLines(Sort(m.declared, StrLe)) + (["  ].freeze", ""]
      + (ResourceLines(m.resources, None) + ([""] + (InstallLines(m) + TestLines())))))))
  {
  }

  lemma Regroup5(a: seq<string>, b: seq<string>, c: seq<string>, d: seq<string>, e: seq<string>, rest: seq<string>)
    ensures a + (b + (c + (d + (e + rest)))) == (a + (b + (c + (d + e)))) + rest
  {
  }

  lemma DeclaredQuiet(m: Manifest)
    requires Accepted(m)
    ensures AllQuiet(WheelLines(Sort(m.declared, StrLe)))
    ensures forall x :: x in WheelLines(Sort(m.declared, StrLe)) ==> Unbroken(x)
  {
    hide Quiet, ResourceName, ResourceOk, Plain, Quotable, Sort, Unbroken;
    SortMembers(m.declared, StrLe);
    WheelLinesQuiet(Sort(m.declared, StrLe));
  }

  lemma PythonSimple(m: Manifest)
    requires Accepted(m)
    ensures Simple(m.python) && m.resources != [] && Fresh([], m.resources)
  {
    hide Simple, ResourceName, ResourceOk, Quotable, Distinct, PythonName;
    PythonIsSimple(m.python);
  }

  lemma PythonIsSimple(s: string)
    requires PythonName(s)
    ensures Simple(s) && '|' !in s
  {
    var prefix := "python@";
    assert forall i :: 0 <= i < 7 ==> s[i] == s[..7][i] == prefix[i];
    assert forall i :: 0 <= i < 7 ==> 'a' <= prefix[i] <= 'z' || prefix[i] == '@';
    forall i | 0 <= i < |s| ensures s[i] == '@' || s[i] == '.' || 'a' <= s[i] <= 'z' || Digit(s[i]) {
      if i < 7 { assert s[i] == prefix[i]; }
    }
  }

  lemma {:induction false} QuietNoReturn(lines: seq<string>)
    requires AllQuiet(lines)
    ensures forall x :: x in lines ==> '\r' !in x
  {
    hide Pieces, ResourceStart;
  }

  lemma {:induction false} ResourceLinesNoReturn(rs: seq<ManifestResource>, previous: Option<Role>)
    requires forall r :: r in rs ==> ResourceOk(r)
    ensures forall x :: x in ResourceLines(rs, previous) ==> '\r' !in x
  {
    hide *;
    if rs == [] {
      NoLines(previous);
    } else {
      var gap := RoleGap(rs, previous);
      QuietNoReturn(gap);
      assert rs[0] in rs;
      BlockNoReturn(rs[0]);
      ResourceLinesNoReturn(rs[1..], Some(rs[0].role));
    }
  }

  lemma NoLines(previous: Option<Role>)
    ensures ResourceLines([], previous) == []
  {
  }

  lemma BlockNoReturn(r: ManifestResource)
    requires ResourceOk(r)
    ensures forall x :: x in BlockLines(r) ==> '\r' !in x
  {
    hide *;
    var l := BlockLines(r);
    BlockSize(r);
    NameLine(r);
    UrlLineShape(r);
    ShaLine(r);
    EndLine();
    NoCarriageReturn(l[0]);
    NoCarriageReturn(l[2]);
    NoCarriageReturn(l[3]);
  }

  lemma RenderedPieces(m: Manifest) returns (before: seq<string>, after: seq<string>)
    requires Accepted(m)
    ensures AllQuiet(before) && AllQuiet(after)
    ensures SplitLines(Render(m)) ==
      AllPieces(before) + (AllPieces(ResourceLines(m.resources, None)) + AllPieces(after))
  {
    hide *;
    before, after := LinesQuiet(m);
    var blocks := ResourceLines(m.resources, None);
    QuietNoReturn(before);
    QuietNoReturn(after);
    ResourcesOk(m);
    ResourceLinesNoReturn(m.resources, None);
    RenderIs(m);
    SplitUnlines(FormulaLines(m));
    AllPiecesConcat(before, blocks + after);
    AllPiecesConcat(blocks, after);
  }

  lemma ResourcesOk(m: Manifest)
    requires Accepted(m)
    ensures forall r :: r in m.resources ==> ResourceOk(r)
  {
    hide ResourceOk;
  }

  lemma RenderIs(m: Manifest)
    ensures Render(m) == Unlines(FormulaLines(m))
  {
    hide FormulaLines, Unlines;
  }

  /** Parsing the rendered text gives back exactly the manifest's resources, in order, when every resource
      URL is free of line breaks and has a known archive kind. Otherwise it fails, and blames the first
      resource that has not: a broken URL line is no URL. */
  lemma ParseUndoesRender(m: Manifest, filename: Filename)
    requires Accepted(m)
    ensures var k := FirstUnreadable(m.resources, filename);
      Parse(Render(m), filename) ==
        if k == |m.resources| then Ok(ParsedUpTo(m.resources, filename)) else Err(Blame(m.resources[k]))
  {
    hide *;
    var before, after := RenderedPieces(m);
    var start, blocks := Reading([], None), AllPieces(ResourceLines(m.resources, None));
    FeedConcat(start, AllPieces(before), blocks + AllPieces(after), filename);
    FeedQuiet([], before, filename);
    FeedConcat(start, blocks, AllPieces(after), filename);
    PythonSimple(m);
    FeedResources([], m.resources, None, filename);
    AfterBlocksOutcome([], m.resources, filename);
    var q := AfterBlocks([], m.resources, filename);
    if q.Failed? {
      FeedFailed(q, AllPieces(after), filename);
    } else {
      FeedQuiet(q.done, after, filename);
    }
    ParsedUpToExact(m.resources, filename);
    assert [] + ParsedUpTo(m.resources, filename) == ParsedUpTo(m.resources, filename);
    ParseIs(Render(m), filename, q);
  }

  lemma ParseIs(text: string, filename: Filename, q: Parser)
    requires Feed(Reading([], None), SplitLines(text), filename) == q
    ensures Parse(text, filename) == Finish(q)
    ensures q.Failed? ==> Finish(q) == Err(q.error)
    ensures q.Reading? && q.open.None? && q.done != [] ==> Finish(q) == Ok(q.done)
  {
    hide Feed, SplitLines;
  }
}
