/** Rendering a formula from its manifest. */
module FormulaGenerate {
  import opened Options
  import opened Ordering
  import opened PyText
  import opened Formula
  import opened FormulaVerify

  datatype Role = BUILD | RUNTIME

  datatype ManifestResource = ManifestResource(name: string, url: string, sha256: string, role: Role)

  datatype Manifest = Manifest(
    uvLockSha256: string, pinsSha256: string, reviewedCommit: string, treeSha256: string, className: string,
    description: string, homepage: string, sourceUrl: string, sourceSha256: string, license: string, headUrl: string,
    headBranch: string, python: string, declared: seq<string>, resources: seq<ManifestResource>)

  /** Ruby's double-quoted form. */
  function Escape(s: string): (r: string) {
    if s == "" then ""
    else (if s[0] == '\\' || s[0] == '"' then ['\\', s[0]] else [s[0]]) + Escape(s[1..])
  }

  function Quote(s: string): (r: string) { "\"" + Escape(s) + "\"" }

  /** Ruby reads a backslash and the character behind it as that character. */
  function Unescape(s: string): (r: string)
    decreases |s|
  {
    if s == "" then ""
    else if s[0] == '\\' && |s| > 1 then [s[1]] + Unescape(s[2..])
    else [s[0]] + Unescape(s[1..])
  }

  /** What is quoted reads back as it was, backslashes and quotes included. */
  lemma {:induction false} UnescapeUndoes(s: string)
    ensures Unescape(Escape(s)) == s
  {
    if s != "" {
      UnescapeUndoes(s[1..]);
      var rest := Escape(s[1..]);
      if s[0] == '\\' || s[0] == '"' {
        assert Escape(s)[2..] == rest;
      } else {
        assert Escape(s)[1..] == rest;
      }
      assert s == [s[0]] + s[1..];
    }
  }

  function Removed(s: string, c: char): (r: string) {
    if s == "" then "" else (if s[0] == c then "" else [s[0]]) + Removed(s[1..], c)
  }

  // The two halves of the first comment.
  function Banner(): string { "# This file is generated by " + ("autobrain-generate-formula. " + "Do not edit.") }

  function Comments(m: Manifest): (lines: seq<string>) {
    [ Banner(),
      "# uv.lock sha256: " + m.uvLockSha256,
      "# candidate-pins.json sha256: " + m.pinsSha256,
      "# reviewed commit: " + m.reviewedCommit,
      "# reviewed release tree sha256: " + m.treeSha256 ]
  }

  function Header(m: Manifest): (lines: seq<string>) {
    [ "class " + (m.className + " < Formula"),
      "  " + "include Language::Python::Virtualenv",
      "",
      "  " + ("desc " + Quote(m.description)),
      "  " + ("homepage " + Quote(m.homepage)),
      "  " + ("url " + Quote(m.sourceUrl)),
      "  " + ("sha256 " + Quote(m.sourceSha256)),
      "  " + ("license " + Quote(m.license)),
      "  " + ("head " + (Quote(m.headUrl) + (", branch: " + Quote(m.headBranch)))),
      "",
      "  " + "depends_on arch: :arm64",
      "  " + "depends_on :macos",
      "  " + ("depends_on " + Quote(m.python)),
      "" ]
  }

  function WheelsOpen(): string { "  " + (WheelsWord() + " = %w[") }

  function WheelLines(names: seq<string>): (lines: seq<string>) {
    if names == [] then [] else ["    " + names[0]] + WheelLines(names[1..])
  }

  function BlockLines(r: ManifestResource): (lines: seq<string>) {
    [ "  " + ("resource " + (Quote(r.name) + " do")),
      "    " + ("url " + Quote(r.url)),
      "    " + ("sha256 " + Quote(r.sha256)),
      "  " + "end" ]
  }

  /** The resource blocks, an empty line wherever the role changes. */
  function ResourceLines(resources: seq<ManifestResource>, previous: Option<Role>): (lines: seq<string>) {
    if resources == [] then []
    else
      (if previous.Some? && resources[0].role != previous.value then [""] else [])
      + BlockLines(resources[0]) + ResourceLines(resources[1..], Some(resources[0].role))
  }

  function CreateLine(m: Manifest): string { CreateWord() + (Quote(Removed(m.python, '@')) + ")") }

  function InstallLines(m: Manifest): (lines: seq<string>) {
    [ "  " + "def install",
      "    " + CreateLine(m),
      "    " + RouteLines()[0],
      "      " + RouteLines()[1],
      "      " + RouteLines()[2],
      "      " + RouteLines()[3],
      "    " + RouteLines()[4],
      "    " + LinkLine(),
      "  " + "end" ]
  }

  // The import statement of the formula's own test, in two halves.
  function ImportHead(): string { "\"import cffi, cryptography, grpc, " }

  function ImportRest(): string { "jiter, markupsafe, numpy, " + "pydantic_core, rpds\"" }

  function TestLines(): (lines: seq<string>) {
    [ "",
      "  " + "test do",
      "    " + ("assert_match \"Usage\", " + "shell_output(bin/\"autobrain --help\")"),
      "    " + ("assert_match \"checks\", " + "shell_output(bin/\"autobrain doctor --json\")"),
      "    " + ("system libexec/\"bin/python\", " + "\"-c\","),
      "           " + (ImportHead() + ImportRest()),
      "  " + "end",
      "end" ]
  }

  /** All lines of the formula; each is followed by a line feed. */
  function FormulaLines(m: Manifest): (lines: seq<string>) {
    Comments(m) + (Header(m) + ([WheelsOpen()] + (WheelLines(Sort(m.declared, StrLe)) + (["  ].freeze", ""]
    + (ResourceLines(m.resources, None) + ([""] + (InstallLines(m) + TestLines())))))))
  }

  function Render(m: Manifest): (text: string) { Unlines(FormulaLines(m)) }

  // ----- manifests -----

  /** A string the loader lets through quotes: no control character, no quote, no backslash. */
  predicate Quotable(s: string) {
    forall i :: 0 <= i < |s| ==> s[i] >= ' ' && s[i] != '\U{7f}' && !IsQuote(s[i]) && s[i] != '\\'
  }

  /** A printable ASCII string that can stand between quotes. */
  predicate Simple(s: string) { Plain(s) && Quotable(s) }

  /** Nowhere the characters that would open a list of words. */
  predicate NoOpener(s: string) { forall k :: 0 <= k < |s| ==> !OpensAt(s, k) }

  predicate OpensAt(s: string, k: nat) { k + 2 < |s| && s[k] == '%' && s[k + 1] == 'w' && s[k + 2] == '[' }

  predicate Digit(c: char) { '0' <= c <= '9' }

  /** `python@` and a version of two numbers. */
  predicate PythonName(s: string) {
    && StartsWith(s, "python@")
    && exists k :: 7 < k < |s| - 1 && s[k] == '.' && forall i :: 7 <= i < |s| && i != k ==> Digit(s[i])
  }

  /** What the loader guarantees and rendering relies on. */
  ghost predicate Accepted(m: Manifest) {
    && Simple(m.uvLockSha256) && Simple(m.pinsSha256) && Simple(m.reviewedCommit) && Simple(m.treeSha256)
    && Simple(m.className) && Simple(m.description) && Quotable(m.homepage) && Quotable(m.sourceUrl)
    && Simple(m.sourceSha256) && Simple(m.license) && Quotable(m.headUrl) && Simple(m.headBranch)
      && PythonName(m.python)
    && NothingOpens(m) && Filled(m)
    && (forall n :: n in m.declared ==> ResourceName(n)) && Distinct(m.declared)
    && m.resources != []
    && (forall r :: r in m.resources ==> ResourceOk(r))
    && (forall i, j :: 0 <= i < j < |m.resources| ==> m.resources[i].name != m.resources[j].name)
  }

  /** The loader refuses Ruby's literal syntax in every field of the header. */
  predicate NothingOpens(m: Manifest) {
    && NoOpener(m.className) && NoOpener(m.description) && NoOpener(m.homepage) && NoOpener(m.sourceUrl)
    && NoOpener(m.sourceSha256) && NoOpener(m.license) && NoOpener(m.headUrl) && NoOpener(m.headBranch)
  }

  /** No value of the header that stands between quotes is empty. */
  predicate Filled(m: Manifest) {
    && m.description != "" && m.homepage != "" && m.sourceUrl != "" && m.sourceSha256 != "" && m.license != ""
    && m.headUrl != "" && m.headBranch != ""
  }

  predicate ResourceOk(r: ManifestResource) {
    && ResourceName(r.name)
    && r.url != "" && Quotable(r.url)
    && r.sha256 != "" && Simple(r.sha256)
  }

  lemma {:induction false} EscapeNothing(s: string)
    requires Quotable(s)
    ensures Escape(s) == s
  {
    if s != "" {
      assert s == [s[0]] + s[1..];
      assert forall i :: 0 <= i < |s[1..]| ==> s[1..][i] == s[i + 1];
      EscapeNothing(s[1..]);
    }
  }
}
