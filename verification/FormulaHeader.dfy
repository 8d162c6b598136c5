/** The header of a rendered formula reads back: each value of a manifest stands where it belongs.

    The parser reads resource blocks only. The lines in front of the wheel list are read here with the same
    line patterns, each under its own keyword, and give back the loaded header value by value
    (`HeaderReadsBack`). Each line starts with a mark of its own, which keeps every other keyword off it
    (`HeaderMarks`); the three dependency lines and the two review comments are told apart further on. */
module FormulaHeader {
  import opened Options
  import opened Ordering
  import opened PyText
  import opened Formula
  import opened FormulaVerify
  import opened FormulaGenerate
  import opened FormulaManifest
  import opened FormulaParseProofs
  import opened FormulaVerifyProofs
  import opened FormulaVerdict

  // ----- reading lines -----

  /** What a reader finds in the lines, in order. */
  function Values<T>(lines: seq<string>, read: string -> Option<T>): (values: seq<T>) {
    if lines == [] then []
    else (if read(lines[0]).Some? then [read(lines[0]).value] else []) + Values(lines[1..], read)
  }

  /** The lines in front of the wheel list. */
  function Preamble(lines: seq<string>): (front: seq<string>) {
    if lines == [] || After(lines[0], WheelsWord()).Some? then [] else [lines[0]] + Preamble(lines[1..])
  }

  function FieldOf(keyword: string): (read: string -> Option<string>) { line => Field(line, keyword) }

  function CommentOf(words: string): (read: string -> Option<string>) { line => After(line, words) }

  /** `head "url", branch: "name"`. */
  function HeadOf(line: string): (r: Option<(string, string)>) {
    var url := Quoted(line, "head");
    if url.None? then None
    else
      var branch := Field(url.value.1, ", branch:");
      if branch.None? then None else Some((url.value.0, branch.value))
  }

  function ClassWord(): string { "class " }

  function ClassEnd(): string { " < Formula" }

  function ClassOf(line: string): (r: Option<string>) {
    var rest := After(line, ClassWord());
    if rest.Some? && EndsWith(rest.value, ClassEnd()) then Some(rest.value[..|rest.value| - |ClassEnd()|]) else None
  }

  lemma {:induction false} NoValues<T>(lines: seq<string>, read: string -> Option<T>)
    requires forall x :: x in lines ==> read(x).None?
    ensures Values(lines, read) == []
  {
    if lines != [] {
      assert lines[0] in lines;
      NoValues(lines[1..], read);
    }
  }

  lemma {:induction false} OneValue<T>(lines: seq<string>, read: string -> Option<T>, i: nat, v: T)
    requires i < |lines| && read(lines[i]) == Some(v)
    requires forall k :: 0 <= k < |lines| && k != i ==> read(lines[k]).None?
    ensures Values(lines, read) == [v]
  {
    var rest := lines[1..];
    assert forall k :: 0 <= k < |rest| ==> rest[k] == lines[k + 1];
    if i == 0 {
      NoValues(rest, read);
    } else {
      OneValue(rest, read, i - 1, v);
    }
  }

  lemma {:induction false} PreambleStops(front: seq<string>, x: string, rest: seq<string>)
    requires forall y :: y in front ==> After(y, WheelsWord()).None?
    requires After(x, WheelsWord()).Some?
    ensures Preamble(front + ([x] + rest)) == front
  {
    hide After, WheelsWord;
    var lines := front + ([x] + rest);
    if front == [] {
      assert lines[0] == x;
    } else {
      assert front[0] in front && lines[0] == front[0] && lines[1..] == front[1..] + ([x] + rest);
      assert forall y :: y in front[1..] ==> y in front;
      PreambleStops(front[1..], x, rest);
    }
  }

  // ----- what lines start with -----

  /** The first three characters after the indent. */
  function Mark(line: string): (mark: string) {
    var t := SkipWs(line);
    if |t| < 3 then t else t[..3]
  }

  lemma FirstThree(t: string, word: string)
    requires StartsWith(t, word) && |word| >= 3
    ensures t[..3] == word[..3]
  {
    assert t[..3] == t[..|word|][..3];
  }

  lemma ThreeAre(word: string, mark: string)
    requires |word| >= 3 && |mark| == 3 && word[0] == mark[0] && word[1] == mark[1] && word[2] == mark[2]
    ensures word[..3] == mark
  {
  }

  lemma OtherMark(line: string, word: string)
    requires |word| >= 3 && Mark(line) != word[..3]
    ensures After(line, word).None?
  {
    hide SkipWs;
    var t := SkipWs(line);
    if StartsWith(t, word) { FirstThree(t, word); }
  }

  lemma MarkIs(w: string, word: string, rest: string)
    requires Indents(w) && |word| >= 3 && !IsSpace(word[0])
    ensures Mark(w + (word + rest)) == word[..3]
  {
    hide SkipWs, IsSpace, Indents;
    IndentFacts(w);
    assert (word + rest)[0] == word[0];
    SkipWsOver(w, word + rest);
    assert (word + rest)[..3] == word[..3];
  }

  lemma NothingMark()
    ensures Mark("") == "" && "" + "" == ""
  {
  }

  function MarksOfComments(): (marks: seq<string>) { ["# T", "# u", "# c", "# r", "# r"] }

  function MarksOfHeader(): (marks: seq<string>) {
    ["cla", "inc", "", "des", "hom", "url", "sha", "lic", "hea", "", "dep", "dep", "dep", ""]
  }

  function Marks(lines: seq<string>): (marks: seq<string>)
    ensures |marks| == |lines| && forall i :: 0 <= i < |lines| ==> marks[i] == Mark(lines[i])
  {
    seq(|lines|, i requires 0 <= i < |lines| => Mark(lines[i]))
  }

  lemma MarkWords1()
    ensures "class "[..3] == "cla" && "include Language::Python::Virtualenv"[..3] == "inc" && "desc "[..3] == "des"
    ensures "homepage "[..3] == "hom" && "url "[..3] == "url" && "sha256 "[..3] == "sha"
  {
    ThreeAre("include Language::Python::Virtualenv", "inc");
  }

  lemma MarkWords2()
    ensures "license "[..3] == "lic" && "head "[..3] == "hea" && "depends_on arch: :arm64"[..3] == "dep"
    ensures "depends_on :macos"[..3] == "dep" && "depends_on "[..3] == "dep"
  {
  }

  lemma HeaderMarks(m: Manifest)
    ensures Marks(Header(m)) == MarksOfHeader()
  {
    hide Mark, Quote, IsSpace, Indents, GoodWord;
    TwoSpaces();
    HeaderWordsTame();
    WordsStart();
    NothingMark();
    MarkWords1();
    MarkWords2();
    MarkIs("", "class ", m.className + " < Formula");
    NoMore("class " + (m.className + " < Formula"));
    MarkIs("  ", "include Language::Python::Virtualenv", "");
    NoMore("include Language::Python::Virtualenv");
    MarkIs("  ", "desc ", Quote(m.description));
    MarkIs("  ", "homepage ", Quote(m.homepage));
    MarkIs("  ", "url ", Quote(m.sourceUrl));
    MarkIs("  ", "sha256 ", Quote(m.sourceSha256));
    MarkIs("  ", "license ", Quote(m.license));
    MarkIs("  ", "head ", Quote(m.headUrl) + (", branch: " + Quote(m.headBranch)));
    MarkIs("  ", "depends_on arch: :arm64", "");
    NoMore("depends_on arch: :arm64");
    MarkIs("  ", "depends_on :macos", "");
    NoMore("depends_on :macos");
    MarkIs("  ", "depends_on ", Quote(m.python));
  }

  lemma WordsStart()
    ensures forall w :: GoodWord(w) ==> |w| >= 3 && !IsSpace(w[0])
  {
  }

  lemma CommentStarts()
    ensures !IsSpace('#') && |Banner()| >= 3 && Banner()[..3] == "# T" && Banner()[0] == '#'
    ensures "# uv.lock sha256: "[..3] == "# u" && "# candidate-pins.json sha256: "[..3] == "# c"
    ensures "# reviewed commit: "[..3] == "# r" && "# reviewed release tree sha256: "[..3] == "# r"
  {
    assert "# This file is generated by "[..3] == "# T";
  }

  lemma CommentMarks(m: Manifest)
    ensures Marks(Comments(m)) == MarksOfComments()
  {
    hide Mark, Banner, IsSpace, Indents;
    TwoSpaces();
    CommentStarts();
    MarkIs("", Banner(), "");
    NoMore(Banner());
    CommentMark("# uv.lock sha256: ", m.uvLockSha256);
    CommentMark("# candidate-pins.json sha256: ", m.pinsSha256);
    CommentMark("# reviewed commit: ", m.reviewedCommit);
    CommentMark("# reviewed release tree sha256: ", m.treeSha256);
  }

  lemma CommentMark(words: string, value: string)
    requires |words| >= 3 && words[0] == '#'
    ensures Mark(words + value) == words[..3]
  {
    hide Mark, Indents;
    TwoSpaces();
    MarkIs("", words, value);
    NoMore(words + value);
  }

  function Front(m: Manifest): (lines: seq<string>) { Comments(m) + Header(m) }

  lemma FrontMarks(m: Manifest)
    ensures |Front(m)| == 19 && Marks(Front(m)) == MarksOfComments() + MarksOfHeader()
  {
    hide Mark, Comments, Header;
    CommentMarks(m);
    HeaderMarks(m);
    assert Marks(Comments(m) + Header(m)) == Marks(Comments(m)) + Marks(Header(m));
  }

  /** A reader that needs a keyword finds at most the line at `i`, when no other line has its mark. */
  lemma ReadAt<T>(m: Manifest, word: string, read: string -> Option<T>, i: nat, v: T)
    requires |word| >= 3 && i < 19
    requires forall line :: read(line).Some? ==> After(line, word).Some?
    requires forall k :: 0 <= k < 19 && k != i ==> (MarksOfComments() + MarksOfHeader())[k] != word[..3]
    requires |Front(m)| == 19 && read(Front(m)[i]) == Some(v)
    ensures Values(Front(m), read) == [v]
  {
    hide Mark, After, Front, MarksOfComments, MarksOfHeader;
    FrontMarks(m);
    var lines := Front(m);
    forall k | 0 <= k < |lines| && k != i ensures read(lines[k]).None? {
      OtherMark(lines[k], word);
    }
    OneValue(lines, read, i, v);
  }

  // ----- each value in its place -----

  lemma FieldNeedsWord(keyword: string)
    ensures forall line :: FieldOf(keyword)(line).Some? ==> After(line, keyword).Some?
  {
  }

  lemma FieldLineTwo(keyword: string, word: string, value: string)
    requires keyword != "" && !IsSpace(keyword[0]) && word == keyword + " "
    requires value != "" && Quotable(value)
    ensures FieldOf(keyword)("  " + (word + Quote(value))) == Some(value)
  {
    hide *;
    TwoSpaces();
    IndentFacts("  ");
    QuoteForm(value);
    var line := "  " + (word + Quote(value));
    FieldShape(keyword, value);
    QuotedFound("  ", keyword, value, "");
    FieldFound(line, keyword, value);
    FieldOfIs(line, keyword);
  }

  lemma FieldOfIs(line: string, keyword: string)
    ensures FieldOf(keyword)(line) == Field(line, keyword)
  {
    hide Field;
  }

  lemma FieldShape(keyword: string, value: string)
    ensures "  " + ((keyword + " ") + ("\"" + (value + "\""))) ==
      "  " + (keyword + (" " + ("\"" + (value + ("\"" + "")))))
  {
    assert "\"" + "" == "\"";
  }

  lemma MarksAre()
    ensures MarksOfComments() + MarksOfHeader() ==
      ["# T", "# u", "# c", "# r", "# r", "cla", "inc", "", "des", "hom", "url", "sha", "lic", "hea", "", "dep", "dep",
       "dep", ""]
  {
  }

  lemma FrontAt(m: Manifest)
    ensures |Front(m)| == 19
    ensures forall i :: 0 <= i < 5 ==> Front(m)[i] == Comments(m)[i]
    ensures forall i :: 5 <= i < 19 ==> Front(m)[i] == Header(m)[i - 5]
  {
    hide Banner, Quote;
  }

  lemma FieldAt(m: Manifest, keyword: string, word: string, i: nat, value: string)
    requires |keyword| >= 3 && !IsSpace(keyword[0]) && word == keyword + " " && value != "" && Quotable(value)
    requires i < 19 && |Front(m)| == 19 && Front(m)[i] == "  " + (word + Quote(value))
    requires forall k :: 0 <= k < 19 && k != i ==> (MarksOfComments() + MarksOfHeader())[k] != keyword[..3]
    ensures Values(Front(m), FieldOf(keyword)) == [value]
  {
    hide *;
    FieldLineTwo(keyword, word, value);
    FieldNeedsWord(keyword);
    ReadAt(m, keyword, FieldOf(keyword), i, value);
  }

  lemma HeaderLines(m: Manifest)
    ensures |Header(m)| == 14
    ensures Header(m)[0] == "class " + (m.className + " < Formula")
    ensures Header(m)[3] == "  " + ("desc " + Quote(m.description))
    ensures Header(m)[4] == "  " + ("homepage " + Quote(m.homepage))
    ensures Header(m)[5] == "  " + ("url " + Quote(m.sourceUrl))
    ensures Header(m)[6] == "  " + ("sha256 " + Quote(m.sourceSha256))
    ensures Header(m)[7] == "  " + ("license " + Quote(m.license))
    ensures Header(m)[8] == "  " + ("head " + (Quote(m.headUrl) + (", branch: " + Quote(m.headBranch))))
    ensures Header(m)[10] == "  " + ("depends_on arch: :arm64" + "")
    ensures Header(m)[11] == "  " + ("depends_on :macos" + "")
    ensures Header(m)[12] == "  " + ("depends_on " + Quote(m.python))
  {
    hide Quote;
  }

  lemma Keywords1()
    ensures "desc" + " " == "desc " && "desc"[..3] == "des"
    ensures "homepage" + " " == "homepage " && "homepage"[..3] == "hom"
    ensures "url" + " " == "url " && "url"[..3] == "url" && !IsSpace('d') && !IsSpace('h') && !IsSpace('u')
  {
  }

  lemma Keywords2()
    ensures "sha256" + " " == "sha256 " && "sha256"[..3] == "sha" && "license" + " " == "license "
    ensures "license"[..3] == "lic" && !IsSpace('s') && !IsSpace('l')
  {
  }

  lemma QuotableParts(m: Manifest)
    requires Accepted(m)
    ensures Quotable(m.description) && Quotable(m.homepage) && Quotable(m.sourceUrl) && Quotable(m.sourceSha256)
    ensures Quotable(m.license) && Quotable(m.headUrl) && Quotable(m.headBranch) && Filled(m) && Simple(m.headBranch)
    ensures PythonName(m.python) && Quotable(m.python) && m.python != ""
  {
    hide Quotable, Plain, PythonName, ResourceOk, ResourceName, Distinct;
    PythonIsSimple(m.python);
    PythonHead(m.python);
  }

  lemma PythonHead(s: string)
    requires PythonName(s)
    ensures |s| > 7 && s == "python@" + s[7..] && '@' !in s[7..]
  {
    assert s[..7] == "python@";
    forall c | c in s[7..] ensures c != '@' {
      var k :| 7 <= k < |s| && s[k] == c;
    }
  }

  lemma PlainFields(m: Manifest)
    requires Accepted(m)
    ensures Values(Front(m), FieldOf("desc")) == [m.description]
    ensures Values(Front(m), FieldOf("homepage")) == [m.homepage]
    ensures Values(Front(m), FieldOf("url")) == [m.sourceUrl]
  {
    hide *;
    FrontAt(m);
    HeaderLines(m);
    MarksAre();
    QuotableParts(m);
    FilledIs(m);
    Keywords1();
    FieldAt(m, "desc", "desc ", 8, m.description);
    FieldAt(m, "homepage", "homepage ", 9, m.homepage);
    FieldAt(m, "url", "url ", 10, m.sourceUrl);
  }

  lemma FilledIs(m: Manifest)
    requires Filled(m)
    ensures m.description != "" && m.homepage != "" && m.sourceUrl != "" && m.sourceSha256 != "" && m.license != ""
    ensures m.headUrl != "" && m.headBranch != ""
  {
  }

  lemma MoreFields(m: Manifest)
    requires Accepted(m)
    ensures Values(Front(m), FieldOf("sha256")) == [m.sourceSha256]
    ensures Values(Front(m), FieldOf("license")) == [m.license]
  {
    hide *;
    FrontAt(m);
    HeaderLines(m);
    MarksAre();
    QuotableParts(m);
    FilledIs(m);
    Keywords2();
    FieldAt(m, "sha256", "sha256 ", 11, m.sourceSha256);
    FieldAt(m, "license", "license ", 12, m.license);
  }

  lemma HeadReads(url: string, branch: string)
    requires Quotable(url) && Quotable(branch) && url != "" && branch != ""
    ensures HeadOf("  " + ("head " + (Quote(url) + (", branch: " + Quote(branch))))) == Some((url, branch))
  {
    hide *;
    QuoteForm(url);
    QuoteForm(branch);
    TwoSpaces();
    IndentFacts("  ");
    HeadShape(url, branch);
    BranchWord();
    var tail := ", branch:" + (" " + ("\"" + (branch + ("\"" + ""))));
    QuotedFound("  ", "head", url, tail);
    NothingIsSpace();
    QuotedFound("", ", branch:", branch, "");
    NoMore(tail);
    FieldFound(tail, ", branch:", branch);
    HeadOfIs("  " + ("head " + (Quote(url) + (", branch: " + Quote(branch)))), url, tail, branch);
  }

  lemma NothingIsSpace()
    ensures AllSpace("")
  {
  }

  lemma BranchWord()
    ensures ", branch:" != "" && !IsSpace(", branch:"[0]) && "head" != "" && !IsSpace("head"[0])
  {
  }

  lemma HeadOfIs(line: string, url: string, tail: string, branch: string)
    requires Quoted(line, "head") == Some((url, tail)) && Field(tail, ", branch:") == Some(branch)
    ensures HeadOf(line) == Some((url, branch))
  {
    hide Quoted, Field;
  }

  lemma HeadShape(url: string, branch: string)
    ensures "  " + ("head " + (("\"" + (url + "\"")) + (", branch: " + ("\"" + (branch + "\""))))) ==
      "  " + ("head" + (" " + ("\"" + (url + ("\"" + (", branch:" + (" " + ("\"" + (branch + ("\"" + ""))))))))))
  {
    assert "\"" + "" == "\"";
    assert ", branch: " == ", branch:" + " ";
    assert "head " == "head" + " ";
  }

  lemma HeadNeedsWord()
    ensures forall line :: HeadOf(line).Some? ==> After(line, "head").Some?
    ensures "head"[..3] == "hea"
  {
    hide InQuotes, Field;
  }

  lemma HeadField(m: Manifest)
    requires Accepted(m)
    ensures Values(Front(m), HeadOf) == [(m.headUrl, m.headBranch)]
  {
    hide *;
    FrontAt(m);
    HeaderLines(m);
    MarksAre();
    QuotableParts(m);
    FilledIs(m);
    HeadReads(m.headUrl, m.headBranch);
    HeadNeedsWord();
    ReadAt(m, "head", HeadOf, 13, (m.headUrl, m.headBranch));
  }

  lemma ClassNeedsWord()
    ensures forall line :: ClassOf(line).Some? ==> After(line, ClassWord()).Some?
    ensures ClassWord() == "class " && ClassWord()[..3] == "cla" && !IsSpace(ClassWord()[0])
  {
    hide After;
  }

  lemma ClassReads(name: string)
    ensures ClassOf(ClassWord() + (name + " < Formula")) == Some(name)
  {
    hide After, IsSpace;
    ClassNeedsWord();
    NothingIsSpace();
    AfterOver("", ClassWord(), name + " < Formula");
    NoMore(ClassWord() + (name + " < Formula"));
    SuffixOff(name, " < Formula");
  }

  lemma ClassField(m: Manifest)
    ensures Values(Front(m), ClassOf) == [m.className]
  {
    hide *;
    FrontAt(m);
    HeaderLines(m);
    MarksAre();
    ClassNeedsWord();
    ClassReads(m.className);
    ReadAt(m, ClassWord(), ClassOf, 5, m.className);
  }

  // ----- dependencies and comments -----

  lemma NoQuoteNoField(w: string, word: string, rest: string)
    requires AllSpace(w) && word != "" && !IsSpace(word[0]) && (SkipWs(rest) == "" || !IsQuote(SkipWs(rest)[0]))
    ensures Field(w + (word + rest), word).None?
  {
    hide SkipWs, After;
    AfterOver(w, word, rest);
  }

  lemma DependsShape()
    ensures "  " + ("depends_on arch: :arm64" + "") == "  " + ("depends_on" + " arch: :arm64")
    ensures "  " + ("depends_on :macos" + "") == "  " + ("depends_on" + " :macos")
    ensures "depends_on" + " " == "depends_on " && "depends_on"[..3] == "dep" && !IsSpace("depends_on"[0])
  {
  }

  lemma DependsRest()
    ensures SkipWs(" arch: :arm64") == "arch: :arm64" && SkipWs(" :macos") == ":macos"
    ensures !IsQuote("arch: :arm64"[0]) && !IsQuote(":macos"[0])
  {
    assert " arch: :arm64" == " " + "arch: :arm64" && " :macos" == " " + ":macos";
    SkipWsOver(" ", "arch: :arm64");
    SkipWsOver(" ", ":macos");
  }

  lemma DependsOther(m: Manifest)
    ensures |Header(m)| == 14
    ensures Field(Header(m)[10], "depends_on").None? && Field(Header(m)[11], "depends_on").None?
  {
    hide *;
    HeaderLines(m);
    DependsShape();
    DependsRest();
    TwoSpaces();
    IndentFacts("  ");
    NoQuoteNoField("  ", "depends_on", " arch: :arm64");
    NoQuoteNoField("  ", "depends_on", " :macos");
  }

  lemma DependsField(m: Manifest)
    requires Accepted(m)
    ensures Values(Front(m), FieldOf("depends_on")) == [m.python]
  {
    hide *;
    FrontAt(m);
    HeaderLines(m);
    MarksAre();
    FrontMarks(m);
    QuotableParts(m);
    DependsShape();
    DependsOther(m);
    FieldLineTwo("depends_on", "depends_on ", m.python);
    FieldNeedsWord("depends_on");
    var lines := Front(m);
    forall k | 0 <= k < |lines| && k != 17 ensures FieldOf("depends_on")(lines[k]).None? {
      FieldOfIs(lines[k], "depends_on");
      if k != 15 && k != 16 { OtherMark(lines[k], "depends_on"); }
    }
    OneValue(lines, FieldOf("depends_on"), 17, m.python);
  }

  lemma CommentsAre(m: Manifest)
    ensures |Comments(m)| == 5
    ensures Comments(m)[1] == "# uv.lock sha256: " + m.uvLockSha256
    ensures Comments(m)[2] == "# candidate-pins.json sha256: " + m.pinsSha256
    ensures Comments(m)[3] == "# reviewed commit: " + m.reviewedCommit
    ensures Comments(m)[4] == "# reviewed release tree sha256: " + m.treeSha256
  {
    hide Banner;
  }

  lemma CommentOfIs(line: string, words: string)
    ensures CommentOf(words)(line) == After(line, words)
  {
    hide After;
  }

  lemma CommentReads(words: string, value: string)
    requires |words| >= 3 && words[0] == '#'
    ensures CommentOf(words)(words + value) == Some(value)
  {
    hide After, SkipWs;
    NothingIsSpace();
    AfterOver("", words, value);
    NoMore(words + value);
  }

  lemma CommentNeedsWords(words: string)
    ensures forall line :: CommentOf(words)(line).Some? ==> After(line, words).Some?
  {
    hide After;
  }

  lemma LockComments(m: Manifest)
    ensures Values(Front(m), CommentOf("# uv.lock sha256: ")) == [m.uvLockSha256]
    ensures Values(Front(m), CommentOf("# candidate-pins.json sha256: ")) == [m.pinsSha256]
  {
    hide *;
    FrontAt(m);
    CommentsAre(m);
    MarksAre();
    CommentStarts();
    CommentReads("# uv.lock sha256: ", m.uvLockSha256);
    CommentNeedsWords("# uv.lock sha256: ");
    ReadAt(m, "# uv.lock sha256: ", CommentOf("# uv.lock sha256: "), 1, m.uvLockSha256);
    CommentReads("# candidate-pins.json sha256: ", m.pinsSha256);
    CommentNeedsWords("# candidate-pins.json sha256: ");
    ReadAt(m, "# candidate-pins.json sha256: ", CommentOf("# candidate-pins.json sha256: "), 2, m.pinsSha256);
  }

  lemma ReviewWordsDiffer(value: string)
    ensures After("# reviewed commit: " + value, "# reviewed release tree sha256: ").None?
    ensures After("# reviewed release tree sha256: " + value, "# reviewed commit: ").None?
  {
    DifferentWords("# reviewed commit: ", "# reviewed release tree sha256: ", 11, value);
    DifferentWords("# reviewed release tree sha256: ", "# reviewed commit: ", 11, value);
  }

  lemma DifferentWords(word: string, other: string, k: nat, value: string)
    requires word != "" && !IsSpace(word[0]) && k < |word| && k < |other| && word[k] != other[k]
    ensures After(word + value, other).None?
  {
    var line := word + value;
    assert SkipWs(line) == line;
    if StartsWith(line, other) { WordPrefix(line, other, k); }
  }

  lemma ReviewComments(m: Manifest)
    ensures Values(Front(m), CommentOf("# reviewed commit: ")) == [m.reviewedCommit]
    ensures Values(Front(m), CommentOf("# reviewed release tree sha256: ")) == [m.treeSha256]
  {
    hide *;
    FrontAt(m);
    CommentsAre(m);
    MarksAre();
    FrontMarks(m);
    CommentStarts();
    ReviewWordsDiffer(m.treeSha256);
    ReviewWordsDiffer(m.reviewedCommit);
    var lines := Front(m);
    ReviewAt(lines, "# reviewed commit: ", 3, 4, m.reviewedCommit);
    ReviewAt(lines, "# reviewed release tree sha256: ", 4, 3, m.treeSha256);
  }

  lemma ReviewAt(lines: seq<string>, words: string, i: nat, other: nat, value: string)
    requires i < |lines| && lines[i] == words + value && |words| >= 3 && words[0] == '#'
    requires forall k :: 0 <= k < |lines| && k != i && k != other ==> Mark(lines[k]) != words[..3]
    requires other < |lines| && After(lines[other], words).None?
    ensures Values(lines, CommentOf(words)) == [value]
  {
    hide Mark, After;
    CommentReads(words, value);
    forall k | 0 <= k < |lines| && k != i ensures CommentOf(words)(lines[k]).None? {
      CommentOfIs(lines[k], words);
      if k != other { OtherMark(lines[k], words); }
    }
    OneValue(lines, CommentOf(words), i, value);
  }

  // ----- the rendered text -----

  lemma FormulaNoReturn(m: Manifest)
    requires Accepted(m)
    ensures forall x :: x in FormulaLines(m) ==> '\r' !in x
  {
    hide *;
    var before, after := LinesQuiet(m);
    QuietNoReturn(before);
    QuietNoReturn(after);
    ResourcesOk(m);
    ResourceLinesNoReturn(m.resources, None);
  }

  lemma FrontIsUnbroken(m: Manifest)
    requires Accepted(m) && UrlsUnbroken(m)
    ensures forall x :: x in Front(m) ==> Unbroken(x)
  {
    hide Unbroken, Comments, Header, Accepted, UrlsUnbroken;
    CommentsQuiet(m);
    HeaderIsUnbroken(m);
  }

  lemma WheelsMark()
    ensures WheelsWord()[..3] == "PLA" && |WheelsWord()| >= 3 && !IsSpace(WheelsWord()[0])
    ensures forall k :: 0 <= k < 19 ==> (MarksOfComments() + MarksOfHeader())[k] != "PLA"
  {
  }

  lemma WheelsOpenIs()
    ensures After(WheelsOpen(), WheelsWord()).Some? && Unbroken(WheelsOpen())
  {
    hide After, WheelsWord, Unbroken, IsSpace, Indents;
    ListLinesQuiet();
    WheelsMark();
    TwoSpaces();
    IndentFacts("  ");
    AfterOver("  ", WheelsWord(), " = %w[");
  }

  lemma LinesAfterFront(m: Manifest) returns (rest: seq<string>)
    ensures FormulaLines(m) == Front(m) + ([WheelsOpen()] + rest)
  {
    hide *;
    FormulaLinesAre(m);
    rest := WheelLines(Sort(m.declared, StrLe)) + (["  ].freeze", ""]
      + (ResourceLines(m.resources, None) + ([""] + (InstallLines(m) + TestLines()))));
    ConcatAssociative(Comments(m), Header(m), [WheelsOpen()] + rest);
    FrontConcat(m);
  }

  lemma FrontConcat(m: Manifest)
    ensures Front(m) == Comments(m) + Header(m)
  {
    hide Comments, Header;
  }

  lemma PreambleOfText(m: Manifest)
    requires Accepted(m) && UrlsUnbroken(m)
    ensures Preamble(SplitLines(Render(m))) == Front(m)
  {
    hide *;
    var rest := LinesAfterFront(m);
    FormulaNoReturn(m);
    RenderIs(m);
    SplitUnlines(FormulaLines(m));
    AllPiecesConcat(Front(m), [WheelsOpen()] + rest);
    FrontIsUnbroken(m);
    PlainPieces(Front(m));
    WheelsOpenIs();
    PiecesFirst(WheelsOpen(), rest);
    UnbrokenPieces(WheelsOpen());
    WheelsMark();
    FrontMarks(m);
    forall y | y in Front(m) ensures After(y, WheelsWord()).None? {
      OtherMark(y, WheelsWord());
    }
    PreambleStops(Front(m), WheelsOpen(), AllPieces(rest));
  }

  /** The lines of the header that no value of the manifest enters. */
  lemma FixedLines(m: Manifest)
    ensures |Front(m)| == 19 && Front(m)[7] == "" && Front(m)[14] == "" && Front(m)[18] == ""
    ensures Front(m)[0] == "# This file is generated by " + ("autobrain-generate-formula. " + "Do not edit.")
    ensures Front(m)[6] == "  " + "include Language::Python::Virtualenv"
    ensures Front(m)[15] == "  " + "depends_on arch: :arm64" && Front(m)[16] == "  " + "depends_on :macos"
  {
    hide Quote;
  }

  /** Every value of the header, read back under its own keyword and found nowhere else. */
  ghost predicate HeaderShows(lines: seq<string>, h: RawHeader) {
    && Values(lines, CommentOf("# uv.lock sha256: ")) == [h.uvLockSha256]
    && Values(lines, CommentOf("# candidate-pins.json sha256: ")) == [h.pinsSha256]
    && Values(lines, CommentOf("# reviewed commit: "))
      == [if h.reviewedCommit.Some? then h.reviewedCommit.value else "None"]
    && Values(lines, CommentOf("# reviewed release tree sha256: ")) == [h.treeSha256]
    && Values(lines, ClassOf) == [h.className]
    && Values(lines, FieldOf("desc")) == [h.description]
    && Values(lines, FieldOf("homepage")) == [h.homepage]
    && Values(lines, FieldOf("url")) == [h.sourceUrl]
    && Values(lines, FieldOf("sha256")) == [h.sourceSha256]
    && Values(lines, FieldOf("license")) == [h.license]
    && Values(lines, HeadOf) == [(h.headUrl, h.branch)]
    && Values(lines, FieldOf("depends_on")) == [h.python]
  }

  /** The lines in front of the wheel list of a rendered manifest give back the loaded header. */
  lemma HeaderReadsBack(h: RawHeader, raw: seq<RawResource>, platform: seq<string>, p: Patterns)
    requires HeaderFine(h, p)
    requires raw != [] && (forall x :: x in raw ==> Fine(x, p)) && NamesApart(raw) && PlatformFine(platform, raw)
    requires Unbroken(h.homepage) && Unbroken(h.sourceUrl) && Unbroken(h.headUrl)
    ensures HeaderShows(Preamble(SplitLines(Render(ToManifest(h, platform, LoadAll(raw))))), h)
  {
    hide *;
    var m := ToManifest(h, platform, LoadAll(raw));
    LoadedIsAccepted(h, raw, platform, p);
    ManifestHas(h, platform, LoadAll(raw));
    PreambleOfText(m);
    LockComments(m);
    ReviewComments(m);
    ClassField(m);
    PlainFields(m);
    MoreFields(m);
    HeadField(m);
    DependsField(m);
    ShowsAll(Front(m), h);
  }

  lemma ManifestHas(h: RawHeader, platform: seq<string>, resources: seq<ManifestResource>)
    ensures var m := ToManifest(h, platform, resources);
      && m.uvLockSha256 == h.uvLockSha256 && m.pinsSha256 == h.pinsSha256 && m.treeSha256 == h.treeSha256
      && m.reviewedCommit == (if h.reviewedCommit.Some? then h.reviewedCommit.value else "None")
      && m.className == h.className && m.description == h.description && m.homepage == h.homepage
      && m.sourceUrl == h.sourceUrl && m.sourceSha256 == h.sourceSha256 && m.license == h.license
      && m.headUrl == h.headUrl && m.headBranch == h.branch && m.python == h.python
      && m.declared == platform && m.resources == resources
      && (UrlsUnbroken(m) <==> Unbroken(h.homepage) && Unbroken(h.sourceUrl) && Unbroken(h.headUrl))
  {
    hide Unbroken;
  }

  lemma ShowsAll(lines: seq<string>, h: RawHeader)
    requires Values(lines, CommentOf("# uv.lock sha256: ")) == [h.uvLockSha256]
    requires Values(lines, CommentOf("# candidate-pins.json sha256: ")) == [h.pinsSha256]
    requires Values(lines, CommentOf("# reviewed commit: "))
      == [if h.reviewedCommit.Some? then h.reviewedCommit.value else "None"]
    requires Values(lines, CommentOf("# reviewed release tree sha256: ")) == [h.treeSha256]
    requires Values(lines, ClassOf) == [h.className]
    requires Values(lines, FieldOf("desc")) == [h.description]
    requires Values(lines, FieldOf("homepage")) == [h.homepage]
    requires Values(lines, FieldOf("url")) == [h.sourceUrl]
    requires Values(lines, FieldOf("sha256")) == [h.sourceSha256]
    requires Values(lines, FieldOf("license")) == [h.license]
    requires Values(lines, HeadOf) == [(h.headUrl, h.branch)]
    requires Values(lines, FieldOf("depends_on")) == [h.python]
    ensures HeaderShows(lines, h)
  {
    hide Values, FieldOf, CommentOf, ClassOf, HeadOf;
  }

  // ----- the rest of the loaded manifest -----

  lemma {:induction false} NothingRemoved(s: string, c: char)
    requires c !in s
    ensures Removed(s, c) == s
  {
    if s != "" {
      assert s == [s[0]] + s[1..] && s[0] in s;
      NothingRemoved(s[1..], c);
    }
  }

  lemma {:induction false} RemovedConcat(a: string, b: string, c: char)
    ensures Removed(a + b, c) == Removed(a, c) + Removed(b, c)
  {
    if a == "" {
      assert a + b == b;
    } else {
      assert (a + b)[0] == a[0] && (a + b)[1..] == a[1..] + b;
      RemovedConcat(a[1..], b, c);
    }
  }

  lemma PythonWithoutAt(s: string)
    requires PythonName(s)
    ensures Removed(s, '@') == "python" + s[7..]
  {
    hide PythonName, Removed;
    PythonHead(s);
    RemovedConcat("python@", s[7..], '@');
    NothingRemoved(s[7..], '@');
    RemovedConcat("python", "@", '@');
    NothingRemoved("python", '@');
    assert "python@" == "python" + "@" && "python" + "" == "python";
    assert Removed("@", '@') == "" by { AtRemoved(); }
  }

  lemma AtRemoved()
    ensures Removed("@", '@') == ""
  {
  }

  /** The install method that is read creates its environment with the interpreter the header names. */
  lemma InstallNamesPython(m: Manifest)
    requires Accepted(m) && HeaderInstallsNothing(m) && forall r :: r in m.resources ==> Unbroken(r.url)
    ensures var install := ExtractInstall(CodeLines(Render(m)));
      && install.Ok? && install.value != []
      && install.value[0] == CreateWord() + (("\"" + (("python" + m.python[7..]) + "\"")) + ")")
  {
    hide *;
    CodeLinesAre(m);
    InstallReadIs(m);
    InstallsNothingIs(m);
    AcceptedPython(m);
    PythonWithoutAt(m.python);
    PythonIsSimple(m.python);
    RemovedSimple(m.python, '@');
    SimpleIs(Removed(m.python, '@'));
    QuoteForm(Removed(m.python, '@'));
    BodyStarts(m);
    PythonIsLong(m.python);
  }

  lemma PythonIsLong(s: string)
    requires PythonName(s)
    ensures |s| >= 7
  {
  }

  lemma BodyStarts(m: Manifest)
    ensures InstallBodyOf(m) != [] && InstallBodyOf(m)[0] == CreateWord() + (Quote(Removed(m.python, '@')) + ")")
  {
    hide CreateWord, Quote, Removed, LinkLine, RouteLines;
  }

  predicate ReadableUrl(url: string, filename: Filename) { Unbroken(url) && Classify(url, filename).Some? }

  /** From loading to parsing: what was loaded comes back resource by resource, exactly when every URL can be
      read. */
  lemma LoadedRoundTrip(h: RawHeader, raw: seq<RawResource>, platform: seq<string>, p: Patterns, filename: Filename)
    requires HeaderFine(h, p)
    requires raw != [] && (forall x :: x in raw ==> Fine(x, p)) && NamesApart(raw) && PlatformFine(platform, raw)
    ensures var r := Parse(Render(ToManifest(h, platform, LoadAll(raw))), filename);
      && (r.Ok? <==> forall x :: x in raw ==> ReadableUrl(x.url, filename))
      && (r.Ok? ==> |r.value| == |raw| && forall i :: 0 <= i < |raw| ==>
            && ReadableUrl(raw[i].url, filename)
            && r.value[i] == Resource(raw[i].name, raw[i].url, raw[i].sha256, Classify(raw[i].url, filename).value))
  {
    hide HeaderFine, Fine, NamesApart, PlatformFine, Parse, Render, Accepted, Unbroken, Classify, ToManifest,
      FirstUnreadable, ParsedUpTo;
    var m := ToManifest(h, platform, LoadAll(raw));
    LoadedIsAccepted(h, raw, platform, p);
    ManifestHas(h, platform, LoadAll(raw));
    ParseUndoesRender(m, filename);
    ParsedUpToExact(m.resources, filename);
    var k := FirstUnreadable(m.resources, filename);
    forall i | 0 <= i < |raw| ensures m.resources[i] == Load(raw[i]) {}
    if k == |raw| {
      forall x | x in raw ensures ReadableUrl(x.url, filename) {
        var i :| 0 <= i < |raw| && raw[i] == x;
        assert Readable(m.resources[i], filename);
      }
    } else {
      assert raw[k] in raw && !Readable(m.resources[k], filename);
    }
  }
}
