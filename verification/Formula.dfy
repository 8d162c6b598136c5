/** Reading a Homebrew formula: archives, resource blocks, the install method and the wheel list. */
module Formula {
  import opened Options
  import opened PyText

  datatype Result<+T> = Ok(value: T) | Err(error: Error)

  datatype Error =
    | BAD_ARCHIVE(url: string) | NESTED | MULTIPLE_URLS(name: string) | MULTIPLE_SHAS(name: string)
    | NO_URL(name: string) | UNSAFE_NAME(name: string) | DUPLICATE(name: string) | UNTERMINATED(name: string)
    | NO_RESOURCES | DUPLICATE_WHEELS | UNTERMINATED_INSTALL | UNSAFE_ROUTES(names: set<string>)

  // ----- archives -----

  datatype ArchiveKind = UNIVERSAL_WHEEL | PLATFORM_WHEEL | SDIST

  /** `s.split(c)`. */
  function SplitOn(s: string, c: char): (parts: seq<string>)
    ensures parts != []
  {
    if s == "" then [""]
    else
      var rest := SplitOn(s[1..], c);
      if s[0] == c then [""] + rest else [[s[0]] + rest[0]] + rest[1..]
  }

  predicate IsSdist(filename: string) {
    || EndsWith(filename, ".tar.gz") || EndsWith(filename, ".tar.bz2") || EndsWith(filename, ".tar.xz")
    || EndsWith(filename, ".tgz") || EndsWith(filename, ".zip")
  }

  predicate AllAny(tags: seq<string>) {
    tags == [] || (tags[0] == "any" && AllAny(tags[1..]))
  }

  /** `None` is the error for a malformed wheel or an unsupported archive. */
  function ClassifyFilename(filename: string): (kind: Option<ArchiveKind>) {
    if EndsWith(filename, ".whl") then
      var parts := SplitOn(filename[..|filename| - 4], '-');
      if |parts| < 5 then None
      else if AllAny(SplitOn(parts[|parts| - 1], '.')) then Some(UNIVERSAL_WHEEL)
      else Some(PLATFORM_WHEEL)
    else if IsSdist(filename) then Some(SDIST)
    else None
  }

  /** `c.join(parts)`. */
  function JoinOn(parts: seq<string>, c: char): (s: string) {
    if parts == [] then "" else if |parts| == 1 then parts[0] else parts[0] + [c] + JoinOn(parts[1..], c)
  }

  lemma {:induction false} SplitFirst(part: string, rest: string, c: char)
    requires c !in part
    ensures SplitOn(part + [c] + rest, c) == [part] + SplitOn(rest, c)
  {
    var s := part + [c] + rest;
    if part == "" {
      assert s[0] == c && s[1..] == rest;
    } else {
      assert part[0] in part && s[0] == part[0] && s[1..] == part[1..] + [c] + rest;
      SplitFirst(part[1..], rest, c);
      assert part == [part[0]] + part[1..];
    }
  }

  lemma {:induction false} SplitLast(part: string, c: char)
    requires c !in part
    ensures SplitOn(part, c) == [part]
  {
    if part != "" {
      assert part[0] in part;
      SplitLast(part[1..], c);
      assert part == [part[0]] + part[1..];
    }
  }

  /** Splitting undoes joining. */
  lemma {:induction false} SplitJoined(parts: seq<string>, c: char)
    requires parts != [] && forall x :: x in parts ==> c !in x
    ensures SplitOn(JoinOn(parts, c), c) == parts
  {
    hide SplitOn;
    assert parts[0] in parts;
    if |parts| == 1 {
      SplitLast(parts[0], c);
    } else {
      SplitJoined(parts[1..], c);
      SplitFirst(parts[0], JoinOn(parts[1..], c), c);
      assert parts == [parts[0]] + parts[1..];
    }
  }

  lemma {:induction false} JoinedHasNot(parts: seq<string>, c: char, d: char)
    requires (forall x :: x in parts ==> d !in x) && c != d
    ensures d !in JoinOn(parts, c)
  {
    if |parts| > 1 { JoinedHasNot(parts[1..], c, d); }
  }

  lemma {:induction false} AllAnyMeans(tags: seq<string>)
    ensures AllAny(tags) <==> forall t :: t in tags ==> t == "any"
  {
    if tags != [] {
      AllAnyMeans(tags[1..]);
      assert forall t :: t in tags <==> t == tags[0] || t in tags[1..];
      assert tags[0] in tags;
      if forall t :: t in tags[1..] ==> t == "any" {
        assert AllAny(tags[1..]);
      }
      assert AllAny(tags) <==> tags[0] == "any" && AllAny(tags[1..]);
    }
  }

  lemma SuffixOff(stem: string, suffix: string)
    ensures EndsWith(stem + suffix, suffix) && (stem + suffix)[..|stem + suffix| - |suffix|] == stem
  {
  }

  /** A wheel named from at least four parts and its platform tags is universal exactly when every tag
      is `any`; with fewer parts it is malformed. */
  lemma WheelKind(parts: seq<string>, tags: seq<string>)
    requires tags != [] && (forall x :: x in parts ==> '-' !in x)
    requires forall t :: t in tags ==> '-' !in t && '.' !in t
    ensures ClassifyFilename(JoinOn(parts + [JoinOn(tags, '.')], '-') + ".whl") ==
      if |parts| < 4 then None else if forall t :: t in tags ==> t == "any" then Some(UNIVERSAL_WHEEL)
        else Some(PLATFORM_WHEEL)
  {
    hide SplitOn, JoinOn, EndsWith, IsSdist, AllAny;
    var all := parts + [JoinOn(tags, '.')];
    JoinedHasNot(tags, '.', '-');
    SplitJoined(all, '-');
    SplitJoined(tags, '.');
    SuffixOff(JoinOn(all, '-'), ".whl");
    AllAnyMeans(tags);
  }

  /** How a URL's archive filename is found: `Path(unquote(urlsplit(url).path)).name`. */
  type Filename = string -> string

  function Classify(url: string, filename: Filename): (kind: Option<ArchiveKind>) {
    ClassifyFilename(filename(url))
  }

  // ----- line patterns -----

  predicate Alnum(c: char) { 'a' <= c <= 'z' || '0' <= c <= '9' }

  predicate Joiner(c: char) { c == '.' || c == '_' || c == '-' }

  /** Lower-case words of letters and digits with single joiners between them. */
  predicate ResourceName(s: string) {
    && s != "" && Alnum(s[0]) && Alnum(s[|s| - 1])
    && (forall i :: 0 <= i < |s| ==> Alnum(s[i]) || Joiner(s[i]))
    && (forall i :: 0 <= i < |s| - 1 && Joiner(s[i]) ==> Alnum(s[i + 1]))
  }

  function FirstQuote(s: string): (k: nat)
    ensures k <= |s| && (k < |s| ==> IsQuote(s[k])) && forall i :: 0 <= i < k ==> !IsQuote(s[i])
  {
    if s == "" || IsQuote(s[0]) then 0 else 1 + FirstQuote(s[1..])
  }

  /** `\s+"value"` (or single quotes): the value and what follows the closing quote. */
  function InQuotes(u: string): (r: Option<(string, string)>) {
    var v := SkipWs(u);
    if |v| == |u| || v == "" || !IsQuote(v[0]) then None
    else
      var k := FirstQuote(v[1..]);
      if k == 0 || k == |v| - 1 || v[1 + k] != v[0] then None else Some((v[1..1 + k], v[k + 2..]))
  }

  /** The same after a keyword. */
  function Quoted(line: string, keyword: string): (r: Option<(string, string)>) {
    var u := After(line, keyword);
    if u.None? then None else InQuotes(u.value)
  }

  /** The `url` and `sha256` lines. */
  function Field(line: string, keyword: string): (r: Option<string>) {
    var q := Quoted(line, keyword);
    if q.Some? && AllSpace(q.value.1) then Some(q.value.0) else None
  }

  /** The line that opens a resource block. */
  function ResourceStart(line: string): (r: Option<string>) {
    var q := Quoted(line, "resource");
    if q.None? then None
    else
      var rest := SkipWs(q.value.1);
      if |rest| < |q.value.1| && StartsWith(rest, "do") && AllSpace(rest[2..]) then Some(q.value.0) else None
  }

  predicate IsEnd(line: string) {
    var t := SkipWs(line);
    StartsWith(t, "end") && AllSpace(t[3..])
  }

  // ----- the block parser -----

  datatype Resource = Resource(name: string, url: string, sha256: string, kind: ArchiveKind)

  datatype Block = Block(name: string, url: Option<string>, sha256: Option<string>)

  datatype Parser = Failed(error: Error) | Reading(done: seq<Resource>, open: Option<Block>)

  function Names(resources: seq<Resource>): (names: set<string>) {
    set r | r in resources :: r.name
  }

  function Close(done: seq<Resource>, b: Block, filename: Filename): (p: Parser) {
    if b.url.None? then Failed(NO_URL(b.name))
    else if !ResourceName(b.name) then Failed(UNSAFE_NAME(b.name))
    else if b.name in Names(done) then Failed(DUPLICATE(b.name))
    else
      var kind := Classify(b.url.value, filename);
      if kind.None? then Failed(BAD_ARCHIVE(b.url.value))
      else
        var sha := if b.sha256.Some? then b.sha256.value else "";
        Reading(done + [Resource(b.name, b.url.value, sha, kind.value)], None)
  }

  /** What one line does inside an open block. */
  function InBlock(done: seq<Resource>, b: Block, line: string, filename: Filename): (p: Parser) {
    if ResourceStart(line).Some? then Failed(NESTED)
    else if Field(line, "url").Some? then
      if b.url.Some? then Failed(MULTIPLE_URLS(b.name)) else Reading(done, Some(b.(url := Field(line, "url"))))
    else if Field(line, "sha256").Some? then
      if b.sha256.Some? then Failed(MULTIPLE_SHAS(b.name)) else Reading(done, Some(b.(sha256 := Field(line, "sha256"))))
    else if !IsEnd(line) then Reading(done, Some(b))
    else Close(done, b, filename)
  }

  function Step(p: Parser, line: string, filename: Filename): (q: Parser) {
    if p.Failed? then p
    else if p.open.Some? then InBlock(p.done, p.open.value, line, filename)
    else
      var start := ResourceStart(line);
      if start.Some? then Reading(p.done, Some(Block(start.value, None, None))) else p
  }

  function Feed(p: Parser, lines: seq<string>, filename: Filename): (q: Parser)
    decreases |lines|
  {
    if lines == [] then p else Feed(Step(p, lines[0], filename), lines[1..], filename)
  }

  function Finish(p: Parser): (r: Result<seq<Resource>>) {
    if p.Failed? then Err(p.error)
    else if p.open.Some? then Err(UNTERMINATED(p.open.value.name))
    else if p.done == [] then Err(NO_RESOURCES)
    else Ok(p.done)
  }

  function Parse(text: string, filename: Filename): (r: Result<seq<Resource>>) {
    Finish(Feed(Reading([], None), SplitLines(text), filename))
  }

  lemma {:induction false} FeedConcat(p: Parser, a: seq<string>, b: seq<string>, filename: Filename)
    ensures Feed(p, a + b, filename) == Feed(Feed(p, a, filename), b, filename)
    decreases |a|
  {
    if a == [] {
      assert a + b == b;
    } else {
      assert (a + b)[1..] == a[1..] + b;
      FeedConcat(Step(p, a[0], filename), a[1..], b, filename);
    }
  }

  lemma {:induction false} FeedFailed(p: Parser, lines: seq<string>, filename: Filename)
    requires p.Failed?
    ensures Feed(p, lines, filename) == p
  {
    if lines != [] { FeedFailed(p, lines[1..], filename); }
  }

  lemma FeedOne(p: Parser, lines: seq<string>, line: string, filename: Filename)
    ensures Feed(p, lines + [line], filename) == Step(Feed(p, lines, filename), line, filename)
  {
    FeedConcat(p, lines, [line], filename);
    var q := Feed(p, lines, filename);
    assert Feed(q, [line], filename) == Feed(Step(q, line, filename), [line][1..], filename);
  }

  /** The parser state kept in the source's local variables. */
  function Locals(resources: seq<Resource>, name: Option<string>, url: Option<string>,
    sha: Option<string>): (p: Parser) {
    Reading(resources, if name.Some? then Some(Block(name.value, url, sha)) else None)
  }

  /** The loop body: the locals after one line, or the error it raises. */
  method ReadLine(
    resources: seq<Resource>, seen: set<string>, name: Option<string>, url: Option<string>, sha: Option<string>,
    line: string, filename: Filename)
    returns (error: Option<Error>, resources': seq<Resource>, seen': set<string>, name': Option<string>,
             url': Option<string>, sha': Option<string>)
    requires seen == Names(resources)
    ensures error.Some? ==> Step(Locals(resources, name, url, sha), line, filename) == Failed(error.value)
    ensures error.None? ==>
      Step(Locals(resources, name, url, sha), line, filename) == Locals(resources', name', url', sha')
    ensures seen' == Names(resources')
  {
    hide Names, Quoted, ResourceStart, Field, IsEnd, Classify, ResourceName;
    error, resources', seen', name', url', sha' := None, resources, seen, name, url, sha;
    if name.None? {
      name', url', sha' := ResourceStart(line), None, None;
      return;
    }
    if ResourceStart(line).Some? {
      error := Some(NESTED);
      return;
    }
    if Field(line, "url").Some? {
      if url.Some? { error := Some(MULTIPLE_URLS(name.value)); }
      url' := Field(line, "url");
      return;
    }
    if Field(line, "sha256").Some? {
      if sha.Some? { error := Some(MULTIPLE_SHAS(name.value)); }
      sha' := Field(line, "sha256");
      return;
    }
    if !IsEnd(line) { return; }
    if url.None? {
      error := Some(NO_URL(name.value));
      return;
    }
    if !ResourceName(name.value) {
      error := Some(UNSAFE_NAME(name.value));
      return;
    }
    if name.value in seen {
      error := Some(DUPLICATE(name.value));
      return;
    }
    var kind := Classify(url.value, filename);
    if kind.None? {
      error := Some(BAD_ARCHIVE(url.value));
      return;
    }
    var resource := Resource(name.value, url.value, if sha.Some? then sha.value else "", kind.value);
    NamesAppend(resources, resource);
    seen' := seen + {name.value};
    resources' := resources + [resource];
    name', url', sha' := None, None, None;
  }

  /** One pass over the lines with the current block's fields, as the source keeps them. */
  method ParseFormula(text: string, filename: Filename) returns (r: Result<seq<Resource>>)
    ensures r == Parse(text, filename)
  {
    hide *;
    var lines := SplitLines(text);
    var resources: seq<Resource> := [];
    var seen: set<string> := {};
    var name: Option<string>, url: Option<string>, sha: Option<string> := None, None, None;
    ghost var start := Reading([], None);
    assert lines[..0] == [];
    ParseStarts(text, filename);
    for i := 0 to |lines|
      invariant seen == Names(resources)
      invariant Feed(start, lines[..i], filename) == Locals(resources, name, url, sha)
    {
      assert lines[..i + 1] == lines[..i] + [lines[i]];
      FeedOne(start, lines[..i], lines[i], filename);
      FeedAll(start, lines, i + 1, filename);
      var error;
      error, resources, seen, name, url, sha := ReadLine(resources, seen, name, url, sha, lines[i], filename);
      if error.Some? {
        ParseFails(error.value);
        return Err(error.value);
      }
    }
    assert lines[..|lines|] == lines;
    ParseEnds(resources, name, url, sha);
    if name.Some? { return Err(UNTERMINATED(name.value)); }
    if resources == [] { return Err(NO_RESOURCES); }
    return Ok(resources);
  }

  lemma ParseStarts(text: string, filename: Filename)
    ensures Parse(text, filename) == Finish(Feed(Reading([], None), SplitLines(text), filename))
    ensures Feed(Reading([], None), [], filename) == Locals([], None, None, None) && Names([]) == {}
  {
  }

  lemma ParseFails(error: Error)
    ensures Finish(Failed(error)) == Err(error)
  {
  }

  lemma ParseEnds(resources: seq<Resource>, name: Option<string>, url: Option<string>, sha: Option<string>)
    ensures Finish(Locals(resources, name, url, sha)) ==
      if name.Some? then Err(UNTERMINATED(name.value)) else if resources == [] then Err(NO_RESOURCES) else Ok(resources)
  {
  }

  lemma NamesAppend(resources: seq<Resource>, r: Resource)
    ensures Names(resources + [r]) == Names(resources) + {r.name}
  {
    var longer := resources + [r];
    assert r in longer && forall x :: x in resources ==> x in longer;
  }

  // Once a prefix has failed, so has the whole.
  lemma FeedAll(p: Parser, lines: seq<string>, i: nat, filename: Filename)
    requires i <= |lines|
    ensures Feed(p, lines[..i], filename).Failed? ==> Feed(p, lines, filename) == Feed(p, lines[..i], filename)
  {
    assert lines == lines[..i] + lines[i..];
    FeedConcat(p, lines[..i], lines[i..], filename);
    if Feed(p, lines[..i], filename).Failed? { FeedFailed(Feed(p, lines[..i], filename), lines[i..], filename); }
  }

  // ----- why a block is refused -----

  /** In an open block: another resource, a second URL or hash is refused for what it is; any other line is passed
      over, up to the one that ends the block. */
  lemma BlockRefuses(done: seq<Resource>, b: Block, line: string, filename: Filename)
    ensures var q := Step(Reading(done, Some(b)), line, filename);
      && (ResourceStart(line).Some? ==> q == Failed(NESTED))
      && (ResourceStart(line).None? && Field(line, "url").Some? ==>
            q == if b.url.Some? then Failed(MULTIPLE_URLS(b.name))
                 else Reading(done, Some(b.(url := Field(line, "url")))))
      && (ResourceStart(line).None? && Field(line, "url").None? && Field(line, "sha256").Some? ==>
            q == if b.sha256.Some? then Failed(MULTIPLE_SHAS(b.name))
                 else Reading(done, Some(b.(sha256 := Field(line, "sha256")))))
      && (ResourceStart(line).None? && Field(line, "url").None? && Field(line, "sha256").None? && !IsEnd(line) ==>
            q == Reading(done, Some(b)))
  {
    hide ResourceStart, Field, IsEnd;
  }

  /** A block that ends is refused without a URL, with an unsafe name, with the name of an earlier block, or with an
      archive of no known kind, and otherwise adds its resource behind the earlier ones. */
  lemma BlockEnds(done: seq<Resource>, b: Block, line: string, filename: Filename)
    requires ResourceStart(line).None? && Field(line, "url").None? && Field(line, "sha256").None? && IsEnd(line)
    ensures var q := Step(Reading(done, Some(b)), line, filename);
      var repeated := exists r :: r in done && r.name == b.name;
      && (b.url.None? <==> q == Failed(NO_URL(b.name)))
      && (b.url.Some? && !ResourceName(b.name) <==> q == Failed(UNSAFE_NAME(b.name)))
      && (b.url.Some? && ResourceName(b.name) && repeated <==> q == Failed(DUPLICATE(b.name)))
      && (b.url.Some? && ResourceName(b.name) && !repeated ==>
            if Classify(b.url.value, filename).None? then q == Failed(BAD_ARCHIVE(b.url.value))
            else
              && q.Reading? && q.open.None? && |q.done| == |done| + 1 && q.done[..|done|] == done
              && var r := q.done[|done|];
                 && r.name == b.name && r.url == b.url.value && Classify(r.url, filename) == Some(r.kind)
                 && r.sha256 == if b.sha256.Some? then b.sha256.value else "")
  {
    hide ResourceStart, Field, IsEnd, ResourceName, Classify;
  }

  /** What goes wrong first is reported, whatever comes after it; a text that ends inside a block blames that block,
      and one without blocks is refused. */
  lemma FirstErrorStays(text: string, filename: Filename, i: nat)
    requires i <= |SplitLines(text)|
    ensures var q := Feed(Reading([], None), SplitLines(text)[..i], filename);
      q.Failed? ==> Parse(text, filename) == Err(q.error)
    ensures var q := Feed(Reading([], None), SplitLines(text), filename);
      && (q.Reading? && q.open.Some? ==> Parse(text, filename) == Err(UNTERMINATED(q.open.value.name)))
      && (q.Reading? && q.open.None? && q.done == [] ==> Parse(text, filename) == Err(NO_RESOURCES))
      && (q.Reading? && q.open.None? && q.done != [] ==> Parse(text, filename) == Ok(q.done))
  {
    FeedAll(Reading([], None), SplitLines(text), i, filename);
    hide Feed, SplitLines;
  }

  // ----- what a parsed formula satisfies -----

  ghost predicate WellFormed(resources: seq<Resource>, filename: Filename) {
    && (forall i, j :: 0 <= i < j < |resources| ==> resources[i].name != resources[j].name)
    && (forall r :: r in resources ==>
          ResourceName(r.name) && r.url != "" && Classify(r.url, filename) == Some(r.kind))
  }

  ghost predicate Sane(p: Parser, filename: Filename) {
    p.Reading? ==>
      && WellFormed(p.done, filename)
      && (p.open.Some? && p.open.value.url.Some? ==> p.open.value.url.value != "")
  }

  lemma QuotedIsNotEmpty(line: string, keyword: string)
    ensures Quoted(line, keyword).Some? ==> Quoted(line, keyword).value.0 != ""
  {
  }

  lemma StepKeepsSane(p: Parser, line: string, filename: Filename)
    requires Sane(p, filename)
    ensures Sane(Step(p, line, filename), filename)
  {
    QuotedIsNotEmpty(line, "url");
    hide Quoted, AllSpace, ResourceName, Classify, IsEnd, ResourceStart;
    if p.Reading? && p.open.Some? && Step(p, line, filename).Reading? && Step(p, line, filename).done != p.done {
      var longer := Step(p, line, filename).done;
      var r := longer[|p.done|];
      assert longer == p.done + [r];
      assert r.name !in Names(p.done);
      forall i, j | 0 <= i < j < |longer| ensures longer[i].name != longer[j].name {
        assert p.done[i] in p.done;
      }
    }
  }

  lemma {:induction false} FeedKeepsSane(p: Parser, lines: seq<string>, filename: Filename)
    requires Sane(p, filename)
    ensures Sane(Feed(p, lines, filename), filename)
    decreases |lines|
  {
    if lines != [] {
      StepKeepsSane(p, lines[0], filename);
      FeedKeepsSane(Step(p, lines[0], filename), lines[1..], filename);
    }
  }

  /** Any text that parses gives at least one resource, with different normalized names, a URL each, and
      the kind its archive has. */
  lemma ParsedIsWellFormed(text: string, filename: Filename)
    requires Parse(text, filename).Ok?
    ensures Parse(text, filename).value != [] && WellFormed(Parse(text, filename).value, filename)
  {
    FeedKeepsSane(Reading([], None), SplitLines(text), filename);
  }
}
