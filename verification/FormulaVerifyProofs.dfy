/** Which lines of a rendered formula the verifier's three line rules leave alone.

    Verification looks at whole lines, split at line feeds only: a comment starts with `#`, the wheel
    list starts with its constant, the install method starts with its definition, and the automatic
    install route is a call that fills a line. A line is ignored when the first three rules pass it
    over. The header, the resource blocks and the formula's own test consist of ignored lines that do
    not call the automatic route either, whatever their quoted values are, because each starts with a
    fixed word or mark that decides the matter (`Tame`).

    The lines of the wheel list are the exception. They start with a name of the manifest's choosing,
    and a name may be the very word that stands for the automatic route: `WheelLinesIgnored` says that
    the list calls that route exactly when the word is listed.

    The names of resources are lower-case package names, so they never start a comment, the list or
    the method: their first character is neither `#` nor `P`, and they contain no space.

    Line breaks other than the line feed play no part here; they matter where lines are first split. */
module FormulaVerifyProofs {
  import opened Options
  import opened PyText
  import opened Formula
  import opened FormulaVerify
  import opened FormulaGenerate
  import opened FormulaParseProofs

  // ----- lines no rule reads -----

  /** Not a comment, not the start of the wheel list, not the start of the install method. */
  predicate Ignored(x: string) {
    !LineStarts(x, "#") && (SkipWs(x) == "" || SkipWs(x)[0] != 'P') && Strip(x) != "def install"
  }

  predicate AllIgnored(lines: seq<string>) { forall x :: x in lines ==> Ignored(x) }

  predicate NoneCalls(lines: seq<string>) { forall x :: x in lines ==> !CallsVirtualenv(x) }

  /** The first characters of a stripped line that already rule everything out. */
  predicate Tame(t: string) {
    t == "" ||
    (t[0] != '#' && t[0] != 'P' && (t[0] == 'v' ==> |t| > 1 && t[1] != 'i') && (t[0] == 'd' ==> |t| > 2 && t[2] != 'f'))
  }

  predicate AllTame(lines: seq<string>) { forall x :: x in lines ==> Tame(SkipWs(x)) }

  lemma WordPrefix(t: string, w: string, i: nat)
    requires StartsWith(t, w) && i < |w|
    ensures i < |t| && t[i] == w[i]
  {
    assert t[..|w|][i] == t[i];
  }

  lemma VirtualenvStart()
    ensures |VirtualenvWord()| == 33 && VirtualenvWord()[0] == 'v' && VirtualenvWord()[1] == 'i'
    ensures !IsSpace(VirtualenvWord()[0])
  {
  }

  lemma StripStart(x: string, s: string)
    requires Strip(x) == s
    ensures StartsWith(SkipWs(x), s)
  {
    DropWsHead(SkipWs(x));
  }

  lemma TameIsIgnored(x: string)
    requires Tame(SkipWs(x))
    ensures Ignored(x) && !CallsVirtualenv(x)
  {
    var t := SkipWs(x);
    hide SkipWs, Strip, StartsWith, VirtualenvWord;
    VirtualenvStart();
    assert "def install"[0] == 'd' && "def install"[2] == 'f' && |"def install"| == 11;
    if StartsWith(t, "#") { WordPrefix(t, "#", 0); }
    if Strip(x) == "def install" {
      StripStart(x, "def install");
      WordPrefix(t, "def install", 0);
      WordPrefix(t, "def install", 2);
    }
    if StartsWith(t, VirtualenvWord()) {
      WordPrefix(t, VirtualenvWord(), 0);
      WordPrefix(t, VirtualenvWord(), 1);
    }
  }

  lemma AllTameIgnored(lines: seq<string>)
    requires AllTame(lines)
    ensures AllIgnored(lines) && NoneCalls(lines)
  {
    hide Tame, Ignored, CallsVirtualenv, SkipWs;
    forall x | x in lines ensures Ignored(x) && !CallsVirtualenv(x) { TameIsIgnored(x); }
  }

  /** An indented body: what is left of it when the indent is skipped. */
  lemma TameBody(w: string, b: string)
    requires Indents(w) && b != "" && !IsSpace(b[0]) && Tame(b)
    ensures Tame(SkipWs(w + b))
  {
    hide Tame, SkipWs, IsSpace;
    IndentFacts(w);
    SkipWsOver(w, b);
  }

  /** A body whose first word is given. */
  lemma TameWord(w: string, word: string, rest: string)
    requires Indents(w) && GoodWord(word)
    ensures Tame(SkipWs(w + (word + rest)))
  {
    var b := word + rest;
    assert b[0] == word[0] && b[1] == word[1] && b[2] == word[2];
    TameBody(w, b);
  }

  lemma TameBlank()
    ensures Tame(SkipWs(""))
  {
  }

  predicate GoodWord(word: string) { |word| >= 3 && !IsSpace(word[0]) && Tame(word) }

  lemma HeaderWordsTame()
    ensures GoodWord("class ") && GoodWord("desc ") && GoodWord("homepage ") && GoodWord("url ") && GoodWord("sha256 ")
    ensures GoodWord("license ") && GoodWord("head ") && GoodWord("depends_on ")
    ensures GoodWord("include Language::Python::Virtualenv")
    ensures GoodWord("depends_on arch: :arm64") && GoodWord("depends_on :macos")
  {
  }

  lemma NoMore(s: string)
    ensures s + "" == s && "" + s == s
  {
  }

  lemma HeaderTame(m: Manifest)
    ensures AllTame(Header(m))
  {
    hide Tame, SkipWs, IsSpace, GoodWord, Quote, Indents;
    TwoSpaces();
    HeaderWordsTame();
    TameBlank();
    TameWord("", "class ", m.className + " < Formula");
    NoMore("class " + (m.className + " < Formula"));
    TameWord("  ", "include Language::Python::Virtualenv", "");
    NoMore("include Language::Python::Virtualenv");
    TameWord("  ", "desc ", Quote(m.description));
    TameWord("  ", "homepage ", Quote(m.homepage));
    TameWord("  ", "url ", Quote(m.sourceUrl));
    TameWord("  ", "sha256 ", Quote(m.sourceSha256));
    TameWord("  ", "license ", Quote(m.license));
    TameWord("  ", "head ", Quote(m.headUrl) + (", branch: " + Quote(m.headBranch)));
    TameWord("  ", "depends_on arch: :arm64", "");
    NoMore("depends_on arch: :arm64");
    TameWord("  ", "depends_on :macos", "");
    NoMore("depends_on :macos");
    TameWord("  ", "depends_on ", Quote(m.python));
  }

  lemma BlockWordsTame()
    ensures GoodWord("resource ") && GoodWord("url ") && GoodWord("sha256 ") && GoodWord("end") && GoodWord("].freeze")
  {
  }

  lemma BlockTame(r: ManifestResource)
    ensures AllTame(BlockLines(r))
  {
    hide Tame, SkipWs, IsSpace, GoodWord, Quote, Indents;
    TwoSpaces();
    BlockWordsTame();
    TameWord("  ", "resource ", Quote(r.name) + " do");
    TameWord("    ", "url ", Quote(r.url));
    TameWord("    ", "sha256 ", Quote(r.sha256));
    TameWord("  ", "end", "");
    NoMore("end");
  }

  lemma TameJoin(a: seq<string>, b: seq<string>)
    requires AllTame(a) && AllTame(b)
    ensures AllTame(a + b)
  {
    hide Tame, SkipWs;
  }

  lemma GapTame(rs: seq<ManifestResource>, previous: Option<Role>) returns (gap: seq<string>)
    requires rs != []
    ensures ResourceLines(rs, previous) == gap + (BlockLines(rs[0]) + ResourceLines(rs[1..], Some(rs[0].role)))
    ensures AllTame(gap)
  {
    hide Tame, SkipWs, BlockLines;
    TameBlank();
    gap := if previous.Some? && rs[0].role != previous.value then [""] else [];
    ConcatAssociative(gap, BlockLines(rs[0]), ResourceLines(rs[1..], Some(rs[0].role)));
  }

  lemma NothingTame(previous: Option<Role>)
    ensures AllTame(ResourceLines([], previous))
  {
  }

  lemma {:induction false} ResourcesTame(rs: seq<ManifestResource>, previous: Option<Role>)
    ensures AllTame(ResourceLines(rs, previous))
    decreases |rs|
  {
    hide *;
    if rs == [] {
      NothingTame(previous);
    } else {
      var gap := GapTame(rs, previous);
      BlockTame(rs[0]);
      ResourcesTame(rs[1..], Some(rs[0].role));
      TameJoin(BlockLines(rs[0]), ResourceLines(rs[1..], Some(rs[0].role)));
      TameJoin(gap, BlockLines(rs[0]) + ResourceLines(rs[1..], Some(rs[0].role)));
    }
  }

  lemma CloseTame()
    ensures AllTame(["  ].freeze", ""]) && AllTame([""])
  {
    hide Tame, SkipWs, IsSpace, GoodWord, Indents;
    TwoSpaces();
    BlockWordsTame();
    TameBlank();
    TameWord("  ", "].freeze", "");
    NoMore("].freeze");
    assert "  " + "].freeze" == "  ].freeze";
  }

  lemma InstallWordsTame()
    ensures |RouteLines()| == 5
    ensures GoodWord(CreateWord()) && GoodWord(RouteLines()[0]) && GoodWord(RouteLines()[1])
    ensures GoodWord(RouteLines()[2]) && GoodWord(RouteLines()[3]) && GoodWord(RouteLines()[4])
  {
  }

  lemma LinkTame()
    ensures GoodWord("venv.pip_install_and_link buildpath, ")
  {
  }

  /** The install method after its first line. */
  lemma InstallRestTame(m: Manifest)
    ensures |InstallLines(m)| == 9 && AllTame(InstallLines(m)[1..])
  {
    hide Tame, SkipWs, IsSpace, GoodWord, Indents, Quote, CreateWord, RouteLines;
    TwoSpaces();
    InstallWordsTame();
    LinkTame();
    BlockWordsTame();
    TameWord("    ", CreateWord(), Quote(Removed(m.python, '@')) + ")");
    TameWord("    ", RouteLines()[0], "");
    NoMore(RouteLines()[0]);
    TameWord("      ", RouteLines()[1], "");
    NoMore(RouteLines()[1]);
    TameWord("      ", RouteLines()[2], "");
    NoMore(RouteLines()[2]);
    TameWord("      ", RouteLines()[3], "");
    NoMore(RouteLines()[3]);
    TameWord("    ", RouteLines()[4], "");
    NoMore(RouteLines()[4]);
    TameWord("    ", "venv.pip_install_and_link buildpath, ", "build_isolation: false");
    TameWord("  ", "end", "");
    NoMore("end");
  }

  lemma TestWordsTame()
    ensures GoodWord("test do") && GoodWord("assert_match \"Usage\", ") && GoodWord("assert_match \"checks\", ")
    ensures GoodWord("system libexec/\"bin/python\", ") && GoodWord(ImportHead()) && GoodWord("end")
  {
  }

  lemma TestEdges()
    ensures |TestLines()| == 8 && TestLines()[0] == "" && TestLines()[1] == "  " + "test do"
    ensures TestLines()[6] == "  " + "end" && TestLines()[7] == "end"
  {
    hide ImportHead, ImportRest;
  }

  lemma TestFirstAssert()
    ensures |TestLines()| == 8
    ensures TestLines()[2] == "    " + ("assert_match \"Usage\", " + "shell_output(bin/\"autobrain --help\")")
  {
    hide ImportHead, ImportRest;
  }

  lemma TestSecondAssert()
    ensures |TestLines()| == 8
    ensures TestLines()[3] == "    " + ("assert_match \"checks\", " + "shell_output(bin/\"autobrain doctor --json\")")
  {
    hide ImportHead, ImportRest;
  }

  lemma TestSystem()
    ensures |TestLines()| == 8 && TestLines()[4] == "    " + ("system libexec/\"bin/python\", " + "\"-c\",")
    ensures TestLines()[5] == "           " + (ImportHead() + ImportRest())
  {
    hide ImportHead, ImportRest;
  }

  lemma LineTame(lines: seq<string>, i: nat, w: string, word: string, rest: string)
    requires i < |lines| && lines[i] == w + (word + rest) && Indents(w) && GoodWord(word)
    ensures Tame(SkipWs(lines[i]))
  {
    hide *;
    TameWord(w, word, rest);
  }

  lemma LineBodyTame(lines: seq<string>, i: nat, w: string, word: string)
    requires i < |lines| && lines[i] == w + word && Indents(w) && GoodWord(word)
    ensures Tame(SkipWs(lines[i]))
  {
    hide Tame, SkipWs, IsSpace;
    TameBody(w, word);
  }

  lemma FirstAssertTame()
    ensures |TestLines()| == 8 && Tame(SkipWs(TestLines()[2]))
  {
    hide *;
    TestFirstAssert();
    TwoSpaces();
    TestWordsTame();
    LineTame(TestLines(), 2, "    ", "assert_match \"Usage\", ", "shell_output(bin/\"autobrain --help\")");
  }

  lemma SecondAssertTame()
    ensures |TestLines()| == 8 && Tame(SkipWs(TestLines()[3]))
  {
    hide *;
    TestSecondAssert();
    TwoSpaces();
    TestWordsTame();
    LineTame(TestLines(), 3, "    ", "assert_match \"checks\", ", "shell_output(bin/\"autobrain doctor --json\")");
  }

  lemma ImportTame()
    ensures |TestLines()| == 8 && Tame(SkipWs(TestLines()[4])) && Tame(SkipWs(TestLines()[5]))
  {
    hide *;
    TestSystem();
    TwoSpaces();
    TestWordsTame();
    LineTame(TestLines(), 4, "    ", "system libexec/\"bin/python\", ", "\"-c\",");
    LineTame(TestLines(), 5, "           ", ImportHead(), ImportRest());
  }

  lemma EdgesTame()
    ensures |TestLines()| == 8 && Tame(SkipWs(TestLines()[0])) && Tame(SkipWs(TestLines()[1]))
    ensures Tame(SkipWs(TestLines()[6])) && Tame(SkipWs(TestLines()[7]))
  {
    hide *;
    TestEdges();
    TwoSpaces();
    TestWordsTame();
    TameBlank();
    LineBodyTame(TestLines(), 1, "  ", "test do");
    LineBodyTame(TestLines(), 6, "  ", "end");
    BareTame("end");
  }

  lemma BareTame(word: string)
    requires GoodWord(word)
    ensures Tame(SkipWs(word))
  {
    hide Tame, IsSpace;
  }

  lemma TestTame()
    ensures AllTame(TestLines())
  {
    hide Tame, SkipWs, TestLines;
    EdgesTame();
    FirstAssertTame();
    SecondAssertTame();
    ImportTame();
  }

  // ----- the wheel names -----

  lemma DefInstallHasSpace()
    ensures |"def install"| == 11 && "def install"[3] == ' '
  {
  }

  /** A listed name is ignored by the other rules; it calls the automatic route only when it is that
      very word. */
  lemma NameLineFacts(n: string)
    requires ResourceName(n)
    ensures Ignored("    " + n)
    ensures CallsVirtualenv("    " + n) <==> n == VirtualenvWord()
  {
    hide ResourceName, VirtualenvWord, IsSpace;
    NameIsPlain(n);
    NameStart(n);
    TwoSpaces();
    IndentFacts("    ");
    SkipWsOver("    ", n);
    DefInstallHasSpace();
    if Strip("    " + n) == "def install" {
      StripStart("    " + n, "def install");
      WordPrefix(n, "def install", 3);
      WordAt(n, 3);
    }
    VirtualenvStart();
    if StartsWith(n, VirtualenvWord()) && |n| > 33 {
      WordAt(n, 33);
    } else if StartsWith(n, VirtualenvWord()) {
      assert n[..33] == n;
    }
  }

  lemma NameStart(n: string)
    requires ResourceName(n)
    ensures n != "" && n[0] != '#' && n[0] != 'P' && !IsSpace(n[0])
  {
  }

  lemma WordAt(n: string, i: nat)
    requires ResourceName(n) && i < |n|
    ensures n[i] != ' ' && n[i] != '(' && !IsSpace(n[i])
  {
  }

  lemma {:induction false} WheelLinesIgnored(names: seq<string>)
    requires forall n :: n in names ==> ResourceName(n)
    ensures AllIgnored(WheelLines(names))
    ensures (exists x :: x in WheelLines(names) && CallsVirtualenv(x)) <==> VirtualenvWord() in names
  {
    hide Ignored, CallsVirtualenv, ResourceName, VirtualenvWord;
    if names != [] {
      assert names[0] in names;
      NameLineFacts(names[0]);
      assert forall n :: n in names[1..] ==> n in names;
      WheelLinesIgnored(names[1..]);
      var lines := WheelLines(names);
      assert lines[1..] == WheelLines(names[1..]);
      assert lines[0] in lines && forall x :: x in lines[1..] ==> x in lines;
      if VirtualenvWord() in names {
        if names[0] == VirtualenvWord() {
          assert CallsVirtualenv(lines[0]);
        } else {
          assert VirtualenvWord() in names[1..];
          var x :| x in lines[1..] && CallsVirtualenv(x);
        }
      }
    }
  }
}
