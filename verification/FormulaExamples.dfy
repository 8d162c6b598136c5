/** Manifests that load, and what becomes of them.

    All examples share one header and the five build resources; they differ in the homepage, in one more
    resource, and in whether that resource is declared as a platform wheel. Each passes every check of the
    loader (`SampleLoads`), so the general results apply to it.

    1. A sound manifest: its rendering is read back and nothing is flagged (`SoundManifestIsAccepted`).

    2. A manifest with a line separator in a resource URL: its rendering cannot be parsed
       (`BrokenUrlLoadsButCannotBeRead`).

    3. A manifest that declares a package with the name of the automatic install route: it is flagged
       whatever its archives are (`RouteNameIsNeverAccepted`).

    4. A manifest whose homepage has line separators: one piece of it reads as the start of the install
       method (`SplitHomepageStartsMethod`), and the verdict is another than with a plain homepage
       (`SplitHomepageChangesVerdict`).

    The first shows that the conditions of the round trip and of the verdict can be met; the second and
    the third that they can fail on what the loader takes; the fourth that the condition on the header
    is not an empty one.

    Most lemmas here check a fixed string against a pattern, character by character. */
module FormulaExamples {
  import opened Options
  import opened PyText
  import opened Formula
  import opened FormulaVerify
  import opened FormulaGenerate
  import opened FormulaManifest
  import opened FormulaParseProofs
  import opened FormulaVerifyProofs
  import opened FormulaVerdict

  function AnyUrl(): (p: Patterns) { Patterns((s: string) => true) }

  function Digits(n: nat): (s: string) { seq(n, i => 'a') }

  function Header0(homepage: string): (h: RawHeader) {
    RawHeader("Autobrain", "Compare memories", homepage, "MIT", "1.0.0", "approved", "https://a.example/x.zip",
              Digits(64), Some(Digits(40)), Digits(64), "https://a.example/x.git", "main", "python@3.13", Digits(64),
              Digits(64))
  }

  function Archive(): (url: string) { "https://p.example/x.zip" }

  function Build(name: string): (r: RawResource) { RawResource(name, Archive(), Digits(64), "build") }

  /** The build resources and one more. */
  function Resources(name: string, url: string): (raw: seq<RawResource>) {
    [Build("hatchling"), Build("packaging"), Build("pathspec"), Build("pluggy"), Build("trove-classifiers"),
     RawResource(name, url, Digits(64), "runtime")]
  }

  function Sample(homepage: string, name: string, url: string, platform: seq<string>): (m: Manifest) {
    ToManifest(Header0(homepage), platform, LoadAll(Resources(name, url)))
  }

  // ----- they load -----

  predicate NoControl(s: string) {
    s != "" && forall i :: 0 <= i < |s| ==>
      ' ' <= s[i] && s[i] != '\U{7f}' && s[i] != '\\' && s[i] != '#' && s[i] != '`' && s[i] != '%'
  }

  lemma PlainRequired(s: string)
    requires NoControl(s)
    ensures Required(s)
  {
  }

  lemma PlainUrl(s: string)
    requires NoControl(s) && forall i :: 0 <= i < |s| ==> !IsQuote(s[i])
    ensures HttpsUrl(s, AnyUrl())
  {
    PlainRequired(s);
  }

  lemma DigitsFine()
    ensures Sha256(Digits(64)) && Hex(Digits(40), 40) && Digits(64) != Zeroes()
  {
    PlainRequired(Digits(64));
    assert Digits(64)[0] != Zeroes()[0];
  }

  lemma {:induction false} NotInside(s: string, w: string)
    requires w != "" && forall i :: 0 <= i < |s| ==> s[i] != w[0]
    ensures !Contains(s, w)
    decreases |s|
  {
    if |w| <= |s| { assert s[..|w|][0] == s[0]; }
    if s != "" { NotInside(s[1..], w); }
  }

  lemma Words0()
    ensures NoControl("Autobrain") && ClassName("Autobrain")
    ensures NoControl("Compare memories") && SafeText("Compare memories")
    ensures NoControl("MIT") && License("MIT")
    ensures NoControl("main") && AllOf("main", AlnumAny, BranchChar)
    ensures NoControl("1.0.0") && NoControl("python@3.13")
  {
  }

  lemma Numbers0()
    ensures Version("1.0.0") && PythonName("python@3.13")
  {
    assert VersionAt("1.0.0", 1, 3);
    var s := "python@3.13";
    assert s[..7] == "python@";
    assert s[8] == '.';
  }

  lemma Branch0()
    ensures Branch("main")
  {
    Words0();
    SplitJoined(["main"], '/');
    assert JoinOn(["main"], '/') == "main";
    assert "main"[0] == 'm';
  }

  lemma Urls0()
    ensures HttpsUrl("https://a.example/x.zip", AnyUrl()) && HttpsUrl("https://a.example/x.git", AnyUrl())
    ensures HttpsUrl(Archive(), AnyUrl()) && !Contains("https://a.example/x.zip", UnapprovedWord())
  {
    PlainUrl("https://a.example/x.zip");
    PlainUrl("https://a.example/x.git");
    PlainUrl(Archive());
    NotInside("https://a.example/x.zip", UnapprovedWord());
  }

  lemma HeaderLoads(homepage: string)
    requires HttpsUrl(homepage, AnyUrl())
    ensures HeaderFine(Header0(homepage), AnyUrl())
  {
    Words0();
    Numbers0();
    Branch0();
    Urls0();
    DigitsFine();
    PlainRequired("Autobrain");
    PlainRequired("Compare memories");
    PlainRequired("MIT");
    PlainRequired("main");
    PlainRequired("1.0.0");
    PlainRequired("python@3.13");
    hide Required, HttpsUrl, Sha256, ClassName, SafeText, License, Branch, Version, PythonName, Hex, Contains, Digits,
      AnyUrl;
  }

  lemma BuildName(name: string)
    requires NoControl(name) && ResourceName(name)
    ensures Fine(Build(name), AnyUrl())
  {
    PlainRequired(name);
    Urls0();
    DigitsFine();
    hide Required, HttpsUrl, Sha256, ResourceName, Digits, AnyUrl, Archive;
  }

  /** A word of lower-case letters. */
  predicate Word(s: string) { s != "" && forall i :: 0 <= i < |s| ==> 'a' <= s[i] <= 'z' }

  lemma WordIsName(s: string)
    requires Word(s)
    ensures NoControl(s) && ResourceName(s)
  {
  }

  lemma NamesJoin(a: string, c: char, b: string)
    requires NoControl(a) && ResourceName(a) && NoControl(b) && ResourceName(b) && (c == '-' || c == '_')
    ensures NoControl(a + [c] + b) && ResourceName(a + [c] + b)
  {
  }

  lemma Names0()
    ensures Word("hatchling") && Word("packaging") && Word("pathspec") && Word("pluggy") && Word("trove")
      && Word("classifiers")
  {
  }

  lemma Names1()
    ensures "trove-classifiers" == "trove" + ['-'] + "classifiers"
  {
  }

  lemma ResourcesFine(name: string, url: string)
    requires NoControl(name) && ResourceName(name) && HttpsUrl(url, AnyUrl())
    ensures forall x :: x in Resources(name, url) ==> Fine(x, AnyUrl())
  {
    hide Required, HttpsUrl, Sha256, ResourceName, Digits, AnyUrl, Archive, NoControl, Word;
    Names0();
    Names1();
    WordIsName("hatchling");
    WordIsName("packaging");
    WordIsName("pathspec");
    WordIsName("pluggy");
    WordIsName("trove");
    WordIsName("classifiers");
    NamesJoin("trove", '-', "classifiers");
    BuildName("hatchling");
    BuildName("packaging");
    BuildName("pathspec");
    BuildName("pluggy");
    BuildName("trove-classifiers");
    PlainRequired(name);
    DigitsFine();
    var raw := Resources(name, url);
    forall x | x in raw ensures Fine(x, AnyUrl()) {
      var i :| 0 <= i < 6 && raw[i] == x;
    }
  }

  lemma NormalizedHead(s: string)
    requires |s| >= 3 && !Joiner(s[0]) && !Joiner(s[1]) && !Joiner(s[2])
    ensures |Normalized(s)| >= 3 && Normalized(s)[0] == s[0] && Normalized(s)[1] == s[1] && Normalized(s)[2] == s[2]
  {
    assert Normalized(s) == [s[0]] + Normalized(s[1..]);
    assert Normalized(s[1..]) == [s[1]] + Normalized(s[2..]) by { assert s[1..][1..] == s[2..]; }
    assert Normalized(s[2..]) == [s[2]] + Normalized(s[3..]) by { assert s[2..][1..] == s[3..]; }
  }

  lemma HeadsDiffer(s: string, t: string)
    requires |s| >= 3 && !Joiner(s[0]) && !Joiner(s[1]) && !Joiner(s[2])
    requires |t| >= 3 && !Joiner(t[0]) && !Joiner(t[1]) && !Joiner(t[2])
    requires s[0] != t[0] || s[1] != t[1] || s[2] != t[2]
    ensures Normalized(s) != Normalized(t)
  {
    NormalizedHead(s);
    NormalizedHead(t);
  }

  lemma BuildHeads()
    ensures |BuildResources()| == 5
    ensures forall i :: 0 <= i < 5 ==> Head(BuildResources()[i]) == ["hat", "pac", "pat", "plu", "tro"][i]
    ensures forall i :: 0 <= i < 5 ==> |BuildResources()[i]| >= 3 && |Head(BuildResources()[i])| == 3
  {
  }

  function Head(s: string): (h: string) { if |s| < 3 then s else s[..3] }

  lemma BuildApart(i: nat, j: nat)
    requires i < j < 5
    ensures Normalized(BuildResources()[i]) != Normalized(BuildResources()[j])
  {
    BuildHeads();
    hide Normalized, BuildResources;
    var s, t := BuildResources()[i], BuildResources()[j];
    assert s[0] == Head(s)[0] && s[1] == Head(s)[1] && s[2] == Head(s)[2];
    assert t[0] == Head(t)[0] && t[1] == Head(t)[1] && t[2] == Head(t)[2];
    HeadsDiffer(s, t);
  }

  lemma LastApart(i: nat, name: string)
    requires i < 5 && |name| >= 3 && !Joiner(name[0]) && !Joiner(name[1]) && !Joiner(name[2])
    requires name[0] == 'v' || name[0] == 'z'
    ensures Normalized(BuildResources()[i]) != Normalized(name)
  {
    BuildHeads();
    hide Normalized, BuildResources;
    var s := BuildResources()[i];
    assert s[0] == Head(s)[0] && s[1] == Head(s)[1] && s[2] == Head(s)[2];
    HeadsDiffer(s, name);
  }

  lemma ResourceNames(name: string, url: string)
    ensures |Resources(name, url)| == 6 && |BuildResources()| == 5 && Resources(name, url)[5].name == name
    ensures Resources(name, url)[5].role == "runtime"
    ensures forall i :: 0 <= i < 5 ==>
      Resources(name, url)[i].name == BuildResources()[i] && Resources(name, url)[i].role == "build"
  {
    hide Digits, Archive;
  }

  lemma ResourcesApart(name: string, url: string)
    requires |name| >= 3 && !Joiner(name[0]) && !Joiner(name[1]) && !Joiner(name[2])
    requires name[0] == 'v' || name[0] == 'z'
    ensures NamesApart(Resources(name, url)) && BuildInFront(Resources(name, url))
  {
    ResourceNames(name, url);
    hide Normalized, BuildResources, Resources;
    var raw := Resources(name, url);
    forall i, j | 0 <= i < j < |raw| ensures Normalized(raw[i].name) != Normalized(raw[j].name) {
      if j < 5 { BuildApart(i, j); } else { LastApart(i, name); }
    }
  }

  /** The loader takes every such manifest. */
  lemma SampleLoads(homepage: string, name: string, url: string, platform: seq<string>)
    requires HttpsUrl(homepage, AnyUrl()) && HttpsUrl(url, AnyUrl()) && NoControl(name) && ResourceName(name)
      && |name| >= 3
    requires !Joiner(name[0]) && !Joiner(name[1]) && !Joiner(name[2]) && (name[0] == 'v' || name[0] == 'z')
    requires platform == [] || platform == [name]
    ensures HeaderFine(Header0(homepage), AnyUrl()) && Resources(name, url) != []
    ensures (forall x :: x in Resources(name, url) ==> Fine(x, AnyUrl())) && NamesApart(Resources(name, url))
    ensures BuildInFront(Resources(name, url)) && PlatformFine(platform, Resources(name, url))
    ensures Accepted(Sample(homepage, name, url, platform))
  {
    HeaderLoads(homepage);
    ResourcesFine(name, url);
    ResourcesApart(name, url);
    PlatformLoads(name, url, platform);
    hide *;
    SomeResources(name, url);
    LoadedIsAccepted(Header0(homepage), Resources(name, url), platform, AnyUrl());
    SampleIs(homepage, name, url, platform);
  }

  lemma SomeResources(name: string, url: string)
    ensures Resources(name, url) != []
  {
  }

  lemma PlatformLoads(name: string, url: string, platform: seq<string>)
    requires ResourceName(name) && (platform == [] || platform == [name])
    ensures PlatformFine(platform, Resources(name, url))
  {
    hide ResourceName, Digits, Archive;
    assert Resources(name, url)[5].name == name;
  }

  lemma SampleIs(homepage: string, name: string, url: string, platform: seq<string>)
    ensures var m := Sample(homepage, name, url, platform);
      && m == ToManifest(Header0(homepage), platform, LoadAll(Resources(name, url)))
      && m.declared == platform && |m.resources| == 6
      && (forall i :: 0 <= i < 5 ==> m.resources[i].url == Archive())
      && m.resources[5].name == name && m.resources[5].url == url
  {
    hide Digits, Archive;
  }

  // ----- one that is accepted -----

  lemma ArchiveUnbroken()
    ensures Unbroken(Archive()) && ClassifyFilename("x.zip") == Some(SDIST)
  {
    var s := "x.zip";
    assert s[|s| - 4..] == ".zip";
    assert s[|s| - 4..] != ".whl";
  }

  function ZipName(): (f: Filename) { (u: string) => "x.zip" }

  function Page(): (url: string) { "https://a.example/" }

  lemma PageFine()
    ensures HttpsUrl(Page(), AnyUrl()) && Unbroken(Page()) && NoControl("zipper") && ResourceName("zipper")
  {
    PlainUrl(Page());
  }

  lemma AllZips(m: Manifest)
    requires forall r :: r in m.resources ==> Unbroken(r.url)
    ensures AllReadable(m, ZipName()) && (m.declared == [] ==> DeclaredExactly(m, ZipName()))
  {
    ArchiveUnbroken();
    hide Unbroken, ClassifyFilename;
    forall r | r in m.resources ensures Classify(r.url, ZipName()) == Some(SDIST) {
      assert ZipName()(r.url) == "x.zip";
    }
    assert (set r | r in m.resources && Classify(r.url, ZipName()) == Some(PLATFORM_WHEEL) :: r.name) == {};
    if m.declared == [] { assert (set n | n in m.declared) == {}; }
  }

  /** With a sound manifest the generator's own verdict is positive: everything is read back, nothing is
      flagged. */
  lemma SoundManifestIsAccepted()
    ensures var m := Sample(Page(), "zipper", Archive(), []);
      && Accepted(m) && AllReadable(m, ZipName()) && HeaderInstallsNothing(m)
      && Verify(Render(m), ZipName()).Ok? && Verify(Render(m), ZipName()).value.violations == {}
  {
    hide *;
    PageFine();
    Urls0();
    ArchiveUnbroken();
    NameHead();
    var m := Sample(Page(), "zipper", Archive(), []);
    SampleLoads(Page(), "zipper", Archive(), []);
    SampleIs(Page(), "zipper", Archive(), []);
    SampleReadable(m);
    AllZips(m);
    SampleHeader(Page(), "zipper", Archive(), []);
    UnbrokenUrlsInstallNothing(m);
    VerdictOnRender(m, ZipName());
  }

  lemma NameHead()
    ensures var s := "zipper"; |s| >= 3 && s[0] == 'z' && !Joiner(s[0]) && !Joiner(s[1]) && !Joiner(s[2])
  {
  }

  lemma SampleReadable(m: Manifest)
    requires |m.resources| == 6 && forall i :: 0 <= i < 6 ==> Unbroken(m.resources[i].url)
    ensures forall r :: r in m.resources ==> Unbroken(r.url)
  {
    hide Unbroken;
  }

  lemma SampleHeader(homepage: string, name: string, url: string, platform: seq<string>)
    requires Unbroken(homepage)
    ensures UrlsUnbroken(Sample(homepage, name, url, platform))
  {
    hide Digits, Archive;
  }

  // ----- one whose rendering cannot be read -----

  /** A URL with a line separator in its path. */
  function BrokenUrl(): (url: string) { "https://p.example/\U{2028}x.zip" }

  lemma BrokenFine()
    ensures HttpsUrl(BrokenUrl(), AnyUrl()) && !Unbroken(BrokenUrl())
  {
    PlainUrl(BrokenUrl());
    assert BrokenUrl()[18] == '\U{2028}';
  }

  /** The loader takes a resource URL with U+2028 in it, and the rendered formula cannot be parsed. */
  lemma BrokenUrlLoadsButCannotBeRead()
    ensures var m := Sample(Page(), "zipper", BrokenUrl(), []);
      && (forall x :: x in Resources("zipper", BrokenUrl()) ==> Fine(x, AnyUrl())) && Accepted(m)
      && Parse(Render(m), ZipName()) == Err(NO_URL("zipper"))
  {
    hide *;
    PageFine();
    BrokenFine();
    ArchiveUnbroken();
    NameHead();
    var m := Sample(Page(), "zipper", BrokenUrl(), []);
    SampleLoads(Page(), "zipper", BrokenUrl(), []);
    SampleIs(Page(), "zipper", BrokenUrl(), []);
    LastIsFirstUnreadable(m);
    ParseUndoesRender(m, ZipName());
  }

  lemma LastIsFirstUnreadable(m: Manifest)
    requires |m.resources| == 6 && (forall i :: 0 <= i < 5 ==> m.resources[i].url == Archive())
    requires !Unbroken(m.resources[5].url)
    ensures FirstUnreadable(m.resources, ZipName()) == 5
    ensures Blame(m.resources[5]) == NO_URL(m.resources[5].name)
  {
    ArchiveUnbroken();
    hide Unbroken, ClassifyFilename, FirstUnreadable;
    var k := FirstUnreadable(m.resources, ZipName());
    assert ZipName()(Archive()) == "x.zip";
    forall i | 0 <= i < 5 ensures Readable(m.resources[i], ZipName()) {}
    assert !Readable(m.resources[5], ZipName());
  }

  // ----- one that can never be accepted -----

  lemma RouteNameFine()
    ensures NoControl(VirtualenvWord()) && ResourceName(VirtualenvWord()) && |VirtualenvWord()| >= 3
    ensures VirtualenvWord()[0] == 'v' && !Joiner(VirtualenvWord()[1]) && !Joiner(VirtualenvWord()[2])
  {
    RouteNameParts();
    VirtualenvStart();
    hide NoControl, ResourceName, VirtualenvWord, Word;
    WordIsName("virtualenv");
    WordIsName("install");
    WordIsName("with");
    WordIsName("resources");
    NamesJoin("with", '_', "resources");
    NamesJoin("install", '_', "with" + ['_'] + "resources");
    NamesJoin("virtualenv", '_', "install" + ['_'] + ("with" + ['_'] + "resources"));
    var w := VirtualenvWord();
    assert w[1] == "virtualenv"[1] == 'i' && w[2] == "virtualenv"[2] == 'r';
  }

  lemma RouteNameParts()
    ensures Word("virtualenv") && Word("install") && Word("with") && Word("resources")
    ensures VirtualenvWord() == "virtualenv" + ['_'] + ("install" + ['_'] + ("with" + ['_'] + "resources"))
  {
  }

  /** A manifest that lists a package named like the automatic install route loads, and is flagged
      whatever its archives are. */
  lemma RouteNameIsNeverAccepted(url: string, filename: Filename)
    requires HttpsUrl(url, AnyUrl())
    ensures var m := Sample(Page(), VirtualenvWord(), url, [VirtualenvWord()]);
      && Accepted(m) && HeaderInstallsNothing(m)
      && (AllReadable(m, filename) ==>
            Verify(Render(m), filename).Ok? && Verify(Render(m), filename).value.violations != {})
  {
    hide *;
    PageFine();
    RouteNameFine();
    var name := VirtualenvWord();
    var m := Sample(Page(), name, url, [name]);
    VIsNoJoiner(name);
    SampleLoads(Page(), name, url, [name]);
    SampleIs(Page(), name, url, [name]);
    SampleHeader(Page(), name, url, [name]);
    UnbrokenUrlsInstallNothing(m);
    if AllReadable(m, filename) { VerdictOnRender(m, filename); }
  }

  lemma VIsNoJoiner(s: string)
    requires s != "" && s[0] == 'v'
    ensures !Joiner(s[0])
  {
  }

  // ----- one whose header starts a method -----

  function SplitPage(): (url: string) { "https://a\U{2028}" + ("def install" + "\U{2028}b") }

  lemma SplitPageFine()
    ensures HttpsUrl(SplitPage(), AnyUrl())
  {
    PlainUrl(SplitPage());
  }

  lemma PieceInMiddle(a: string, p: string, b: string)
    requires Unbroken(a) && Unbroken(p) && '\r' !in b
    ensures p in Pieces(a + ("\U{2028}" + (p + ("\U{2028}" + b))))
  {
    var rest := p + ("\U{2028}" + b);
    var x := a + ("\U{2028}" + rest);
    NoCarriageReturn(a);
    NoCarriageReturn(p);
    hide *;
    BreakAt(a, rest);
    FirstPiece(x);
    BreakAt(p, b);
    FirstPiece(rest);
  }

  lemma BreakAt(a: string, rest: string)
    requires Unbroken(a)
    ensures var x := a + ("\U{2028}" + rest);
      FirstBreak(x) == |a| && x[..|a|] == a && x[|a| + 1..] == rest && |a| < |x|
  {
    var x := a + ("\U{2028}" + rest);
    assert x[|a|] == '\U{2028}' && forall i :: 0 <= i < |a| ==> x[i] == a[i];
    FirstBreakUnique(x, |a|);
  }

  lemma HomepageLine(homepage: string, m: Manifest)
    requires m.homepage == homepage && Quotable(homepage)
    ensures "  " + ("homepage " + ("\"" + (homepage + "\""))) in Header(m)
  {
    QuoteForm(homepage);
    hide Quote;
    assert Header(m)[4] == "  " + ("homepage " + Quote(m.homepage));
  }

  lemma {:induction false} PieceOfLine(lines: seq<string>, x: string, p: string)
    requires x in lines && p in Pieces(x)
    ensures p in AllPieces(lines)
  {
    hide Pieces;
    if lines[0] != x { PieceOfLine(lines[1..], x, p); }
  }

  lemma MethodPiece()
    ensures Unbroken("def install") && Strip("def install") == "def install" && !LineStarts("def install", "#")
  {
    NoStrip("def install");
    assert SkipWs("def install") == "def install";
    assert "def install"[0] != '#';
    NotPrefix("def install", "#");
  }

  lemma NoStrip(s: string)
    requires s != "" && !IsSpace(s[0]) && !IsSpace(s[|s| - 1])
    ensures Strip(s) == s && SkipWs(s) == s
  {
  }

  lemma SplitLine()
    ensures var line := "  " + ("homepage " + ("\"" + (SplitPage() + "\"")));
      "def install" in Pieces(line)
  {
    var a, b := "  homepage \"https://a", "b\"";
    MethodPiece();
    FrontUnbroken();
    PieceInMiddle(a, "def install", b);
    hide *;
    SplitLineIs();
  }

  lemma FrontUnbroken()
    ensures Unbroken("  homepage \"https://a") && '\r' !in "b\""
  {
  }

  lemma SplitLineIs()
    ensures "  " + ("homepage " + ("\"" + (SplitPage() + "\""))) ==
      "  homepage \"https://a" + ("\U{2028}" + ("def install" + ("\U{2028}" + "b\"")))
  {
  }

  /** A homepage with line separators loads, and a piece of it reads as the start of the install method. */
  lemma SplitHomepageStartsMethod()
    ensures var m := Sample(SplitPage(), "zipper", Archive(), []); Accepted(m) && !HeaderInstallsNothing(m)
  {
    hide *;
    PageFine();
    Urls0();
    NameHead();
    SplitPageFine();
    var m := Sample(SplitPage(), "zipper", Archive(), []);
    SampleLoads(SplitPage(), "zipper", Archive(), []);
    SplitPageIs(m);
    UrlIsQuotable(SplitPage(), AnyUrl());
    HomepageLine(SplitPage(), m);
    SplitLine();
    PieceOfLine(Header(m), "  " + ("homepage " + ("\"" + (SplitPage() + "\""))), "def install");
    MethodPiece();
    InstallsNothingIs(m);
    HeaderCodeIs(m);
    UncommentedMeans(AllPieces(Header(m)));
    SomeInstall(HeaderCode(m), "def install");
  }

  lemma SplitPageIs(m: Manifest)
    requires m == Sample(SplitPage(), "zipper", Archive(), [])
    ensures m.homepage == SplitPage()
  {
    hide Digits, Archive, SplitPage;
  }

  lemma SomeInstall(lines: seq<string>, x: string)
    requires x in lines && Strip(x) == "def install"
    ensures !NoInstall(lines)
  {
    hide Strip;
  }

  // ----- and what that does to the verdict -----

  function WheelUrl(): (url: string) { "https://p.example/zipper.whl" }

  function WheelName(): (filename: string) {
    JoinOn(["zipper", "1", "c", "d"] + [JoinOn(["arm"], '.')], '-') + ".whl"
  }

  function WheelFile(): (f: Filename) { (u: string) => if u == WheelUrl() then WheelName() else "x.zip" }

  lemma WheelFine()
    ensures HttpsUrl(WheelUrl(), AnyUrl()) && Unbroken(WheelUrl()) && WheelUrl() != Archive()
    ensures ClassifyFilename(WheelName()) == Some(PLATFORM_WHEEL)
  {
    PlainUrl(WheelUrl());
    WheelNameKind();
    assert WheelUrl()[18] != Archive()[18];
  }

  lemma WheelNameKind()
    ensures ClassifyFilename(WheelName()) == Some(PLATFORM_WHEEL)
  {
    hide ClassifyFilename, JoinOn;
    WheelParts();
    var parts, tags := ["zipper", "1", "c", "d"], ["arm"];
    WheelKind(parts, tags);
    assert "arm" in tags;
    assert |parts| == 4;
  }

  lemma WheelParts()
    ensures forall x :: x in ["zipper", "1", "c", "d"] ==> '-' !in x
    ensures forall t :: t in ["arm"] ==> '-' !in t && '.' !in t
    ensures "arm" != "any"
  {
    assert "arm"[1] != "any"[1];
  }

  /** A sample whose runtime resource is a declared platform wheel. */
  function Wheeled(homepage: string): (m: Manifest) { Sample(homepage, "zipper", WheelUrl(), ["zipper"]) }

  lemma WheeledReads(homepage: string)
    requires HttpsUrl(homepage, AnyUrl())
    ensures var m := Wheeled(homepage);
      && Accepted(m) && AllReadable(m, WheelFile()) && DeclaredExactly(m, WheelFile())
      && m.declared == ["zipper"] && VirtualenvWord() !in m.declared && m.homepage == homepage
  {
    hide *;
    PageFine();
    WheelFine();
    NameHead();
    Urls0();
    ArchiveUnbroken();
    WheeledIs(homepage);
    SampleLoads(homepage, "zipper", WheelUrl(), ["zipper"]);
    SampleIs(homepage, "zipper", WheelUrl(), ["zipper"]);
    ZipperIsNoRoute();
    WheelsDeclared(Wheeled(homepage));
  }

  lemma WheeledIs(homepage: string)
    ensures Wheeled(homepage) == Sample(homepage, "zipper", WheelUrl(), ["zipper"])
      && Wheeled(homepage).homepage == homepage
  {
    hide Digits, Archive, WheelUrl, LoadAll, Resources;
  }

  lemma ZipperIsNoRoute()
    ensures VirtualenvWord() !in ["zipper"]
  {
    VirtualenvStart();
    assert "zipper"[0] != VirtualenvWord()[0];
  }

  lemma WheelsDeclared(m: Manifest)
    requires |m.resources| == 6 && m.declared == ["zipper"]
    requires forall i :: 0 <= i < 5 ==> m.resources[i].url == Archive()
    requires m.resources[5].name == "zipper" && m.resources[5].url == WheelUrl()
    ensures AllReadable(m, WheelFile()) && DeclaredExactly(m, WheelFile())
  {
    WheelFine();
    ArchiveUnbroken();
    hide Unbroken, ClassifyFilename, WheelName, WheelUrl, Archive;
    forall i | 0 <= i < 6
      ensures Unbroken(m.resources[i].url)
      ensures Classify(m.resources[i].url, WheelFile()) == Some(if i < 5 then SDIST else PLATFORM_WHEEL)
    {
      assert WheelFile()(Archive()) == "x.zip" && WheelFile()(WheelUrl()) == WheelName();
    }
    forall r | r in m.resources ensures Readable(r, WheelFile()) {
      var i :| 0 <= i < 6 && m.resources[i] == r;
    }
    var wheels := set r | r in m.resources && Classify(r.url, WheelFile()) == Some(PLATFORM_WHEEL) :: r.name;
    assert m.resources[5] in m.resources;
    assert "zipper" in wheels;
    forall n | n in wheels ensures n == "zipper" {
      var r :| r in m.resources && Classify(r.url, WheelFile()) == Some(PLATFORM_WHEEL) && r.name == n;
      var i :| 0 <= i < 6 && m.resources[i] == r;
    }
    assert (set n | n in m.declared) == {"zipper"} == wheels;
  }

  function HomeFront(): (s: string) { "  homepage \"https://a" }

  /** The homepage's line falls into three pieces. */
  lemma SplitPieces()
    ensures Pieces("  " + ("homepage " + ("\"" + (SplitPage() + "\"")))) == [HomeFront()] + (["def install"] + ["b\""])
  {
    var a, p, b := HomeFront(), "def install", "b\"";
    MethodPiece();
    FrontUnbroken();
    LastUnbroken();
    hide *;
    SplitLineIs();
    HomeFrontIs();
    ThreePieces(a, p, b);
  }

  lemma HomeFrontIs()
    ensures HomeFront() == "  homepage \"https://a"
  {
  }

  lemma LastUnbroken()
    ensures Unbroken("b\"") && '\r' !in "b\"" && Strip("b\"") == "b\"" && !LineStarts("b\"", "#")
      && !StartsWith("b\"", CreateWord())
  {
    NoStrip("b\"");
    NotPrefix("b\"", "#");
    NotPrefix("b\"", CreateWord());
  }

  lemma ThreePieces(a: string, p: string, b: string)
    requires Unbroken(a) && Unbroken(p) && Unbroken(b)
    ensures Pieces(a + ("\U{2028}" + (p + ("\U{2028}" + b)))) == [a] + ([p] + [b])
  {
    var rest := p + ("\U{2028}" + b);
    var x := a + ("\U{2028}" + rest);
    NoCarriageReturn(a);
    NoCarriageReturn(p);
    NoCarriageReturn(b);
    WholeBreak(b);
    hide *;
    BreakAt(a, rest);
    FirstPiece(x);
    BreakAt(p, b);
    FirstPiece(rest);
    FirstPiece(b);
  }

  lemma WholeBreak(b: string)
    requires Unbroken(b)
    ensures FirstBreak(b) == |b|
  {
    assert b[..|b|] == b;
    FirstBreakUnique(b, |b|);
  }

  /** The header's code up to the homepage, and the rest of it. */
  lemma SplitHeaderCode(m: Manifest) returns (front: seq<string>, rest: seq<string>)
    requires Accepted(m) && m.homepage == SplitPage()
    ensures HeaderCode(m) == front + (["def install"] + (["b\""] + rest)) && NoInstall(front)
  {
    hide *;
    HeaderSplits(m);
    SplitPieces();
    HeaderCodeIs(m);
    var start, end, line := Header(m)[..4], Header(m)[5..], "  " + ("homepage " + ("\"" + (SplitPage() + "\"")));
    AllPiecesConcat(start, [line] + end);
    AllPiecesConcat([line], end);
    OneLinePieces(line);
    rest := Uncommented(AllPieces(end));
    var middle := [HomeFront()] + (["def install"] + ["b\""]);
    UncommentedConcat(AllPieces(start), middle + AllPieces(end));
    UncommentedConcat(middle, AllPieces(end));
    StartInPieces(m);
    PlainPieces(start);
    HomeFrontTame();
    UncommentedKept(start);
    MiddleKept();
    UncommentedKept(middle);
    front := start + [HomeFront()];
    FrontInstallsNothing(start);
    Regroup(start, [HomeFront()], ["def install"], ["b\""], rest);
  }

  lemma Regroup(a: seq<string>, b: seq<string>, c: seq<string>, d: seq<string>, e: seq<string>)
    ensures a + ((b + (c + d)) + e) == (a + b) + (c + (d + e))
  {
  }

  lemma HeaderSplits(m: Manifest)
    requires Accepted(m) && m.homepage == SplitPage()
    ensures |Header(m)| == 14
    ensures Header(m) == Header(m)[..4] + ([("  " + ("homepage " + ("\"" + (SplitPage() + "\""))))] + Header(m)[5..])
  {
    hide *;
    AcceptedHomepage(m);
    QuoteForm(m.homepage);
    FourthLine(m);
    assert Header(m) == Header(m)[..4] + ([Header(m)[4]] + Header(m)[5..]);
  }

  lemma FourthLine(m: Manifest)
    ensures |Header(m)| == 14 && Header(m)[4] == "  " + ("homepage " + Quote(m.homepage))
  {
    hide Quote;
  }

  lemma AcceptedHomepage(m: Manifest)
    requires Accepted(m)
    ensures Quotable(m.homepage)
  {
    hide Plain, Quotable, NoOpener, ResourceOk, ResourceName, PythonName;
  }

  lemma OneLinePieces(line: string)
    ensures AllPieces([line]) == Pieces(line)
  {
    hide Pieces;
    assert AllPieces([line][1..]) == [];
  }

  lemma StartInPieces(m: Manifest)
    requires Accepted(m)
    ensures |Header(m)| == 14 && (forall x :: x in Header(m)[..4] ==> Unbroken(x))
    ensures NoComments(Header(m)[..4]) && NoInstall(Header(m)[..4])
  {
    HeaderTame(m);
    TameIs(Header(m));
    StartUnbroken(m);
    hide LineStarts, Strip, Unbroken, Accepted, Header;
    assert forall x :: x in Header(m)[..4] ==> x in Header(m);
  }

  lemma StartUnbroken(m: Manifest)
    requires Accepted(m)
    ensures |Header(m)| == 14 && (forall x :: x in Header(m)[..4] ==> Unbroken(x))
  {
    hide Quiet, Unbroken, Plain, Quotable, ResourceOk, ResourceName, Quote, Quoteless, Indents, PythonName;
    HeaderWords();
    DependsWords();
    TwoSpaces();
    NothingUnbroken();
    PlainConcat(m.className, " < Formula");
    PlainConcat("class ", m.className + " < Formula");
    PlainUnbroken("class " + (m.className + " < Formula"));
    QuietPlain("  ", "include Language::Python::Virtualenv");
    QuietSimple("desc ", m.description);
  }

  lemma HomeFrontTame()
    ensures !LineStarts(HomeFront(), "#") && Strip(HomeFront()) != "def install"
  {
    hide *;
    HeaderWordsTame();
    TwoSpaces();
    TameWord("  ", "homepage ", "\"https://a");
    HomeFrontJoins();
    TameIsIgnored(HomeFront());
    IgnoredMeans(HomeFront());
  }

  lemma HomeFrontJoins()
    ensures HomeFront() == "  " + ("homepage " + "\"https://a")
  {
  }

  lemma IgnoredMeans(x: string)
    requires Ignored(x)
    ensures !LineStarts(x, "#") && Strip(x) != "def install"
  {
    hide LineStarts, SkipWs, Strip;
  }

  lemma MiddleKept()
    ensures NoComments([HomeFront()] + (["def install"] + ["b\""]))
  {
    HomeFrontTame();
    MethodPiece();
    LastUnbroken();
    hide LineStarts, HomeFront;
  }

  lemma FrontInstallsNothing(start: seq<string>)
    requires NoInstall(start)
    ensures NoInstall(start + [HomeFront()])
  {
    HomeFrontTame();
    hide Strip, HomeFront;
  }

  /** What is read as the install method starts with the rest of the homepage: it never takes the approved
      route. */
  lemma SplitInstallRead(m: Manifest)
    requires Accepted(m) && m.homepage == SplitPage()
    ensures InstallRead(m).Ok? ==> !ApprovedRoute(InstallRead(m).value)
  {
    hide *;
    var front, rest := SplitHeaderCode(m);
    InstallsNothingIs(m);
    CodePartIs(m);
    MethodPiece();
    LastUnbroken();
    var tail := ["b\""] + (rest + ListPart(m));
    NoInstallIs(front);
    FindInstallAfter(front, "def install", tail);
    Rejoin(front, ["b\""], rest, ListPart(m));
    FirstOfBody("b\"", rest + ListPart(m));
    ReadsFrom(front, "def install", tail);
    RouteStarts(InstallRead(m));
  }

  lemma Rejoin(front: seq<string>, b: seq<string>, rest: seq<string>, list: seq<string>)
    ensures (front + (["def install"] + (b + rest))) + list == front + (["def install"] + (b + (rest + list)))
  {
  }

  lemma FirstOfBody(line: string, rest: seq<string>)
    requires Strip(line) != "end"
    ensures InstallBody([line] + rest, 1).Some? ==>
      InstallBody([line] + rest, 1).value != [] && InstallBody([line] + rest, 1).value[0] == Strip(line)
  {
    hide Strip, Opens;
    assert ([line] + rest)[1..] == rest;
  }

  lemma ReadsFrom(front: seq<string>, x: string, tail: seq<string>)
    requires FindInstall(front + ([x] + tail)) == |front|
    ensures ExtractInstall(front + ([x] + tail)) ==
      if InstallBody(tail, 1).None? then Err(UNTERMINATED_INSTALL) else Ok(InstallBody(tail, 1).value)
  {
    hide FindInstall, InstallBody;
    var lines := front + ([x] + tail);
    assert lines[|front| + 1..] == tail;
  }

  lemma RouteStarts(r: Result<seq<string>>)
    ensures r.Ok? && ApprovedRoute(r.value) ==> r.value != [] && StartsWith(r.value[0], CreateWord())
  {
    hide CreateWord, StartsWith;
  }

  /** The same manifest with two homepages: with one in a single piece its rendering is accepted; with one
      of which a piece starts a method it is not. */
  lemma SplitHomepageChangesVerdict()
    ensures var v := Verify(Render(Wheeled(Page())), WheelFile()); v.Ok? && v.value.violations == {}
    ensures var v := Verify(Render(Wheeled(SplitPage())), WheelFile()); !(v.Ok? && v.value.violations == {})
  {
    hide *;
    PageFine();
    SplitPageFine();
    WheeledReads(Page());
    WheeledReads(SplitPage());
    WheeledIs(Page());
    SampleHeader(Page(), "zipper", WheelUrl(), ["zipper"]);
    UnbrokenUrlsInstallNothing(Wheeled(Page()));
    VerdictOnRender(Wheeled(Page()), WheelFile());
    SplitInstallRead(Wheeled(SplitPage()));
    VerdictExact(Wheeled(SplitPage()), WheelFile());
  }
}
