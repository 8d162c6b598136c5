/** Checking how a formula installs its Python resources. */
module FormulaVerify {
  import opened Options
  import opened PyText
  import opened Formula

  predicate LineStarts(line: string, w: string) { StartsWith(SkipWs(line), w) }

  /** The lines that are not comments. */
  function Uncommented(lines: seq<string>): (r: seq<string>) {
    if lines == [] then []
    else (if LineStarts(lines[0], "#") then [] else [lines[0]]) + Uncommented(lines[1..])
  }

  // Splitting the joined lines again gives the same lines, except a last empty one that no rule reads.
  function CodeLines(text: string): (lines: seq<string>) { Uncommented(SplitLines(text)) }

  // ----- the install method -----

  /** A stripped line that opens a nested block. */
  predicate Opens(s: string) {
    || StartsWith(s, "def ") || StartsWith(s, "if ") || StartsWith(s, "unless ") || StartsWith(s, "case ")
    || StartsWith(s, "begin") || StartsWith(s, "while ") || StartsWith(s, "until ") || StartsWith(s, "for ")
    || EndsWith(s, " do") || Contains(s, " do |")
  }

  function Before(s: string, rest: Option<seq<string>>): (r: Option<seq<string>>) {
    if rest.Some? then Some([s] + rest.value) else None
  }

  /** The stripped lines up to the `end` that closes `depth` open blocks. */
  function InstallBody(lines: seq<string>, depth: nat): (r: Option<seq<string>>)
    requires depth >= 1
    decreases |lines|
  {
    if lines == [] then None
    else
      var s := Strip(lines[0]);
      if s == "end" then (if depth == 1 then Some([]) else Before(s, InstallBody(lines[1..], depth - 1)))
      else Before(s, InstallBody(lines[1..], if Opens(s) then depth + 1 else depth))
  }

  function FindInstall(lines: seq<string>): (k: nat)
    ensures k <= |lines|
  {
    if lines == [] || Strip(lines[0]) == "def install" then 0 else 1 + FindInstall(lines[1..])
  }

  function ExtractInstall(lines: seq<string>): (r: Result<seq<string>>) {
    var k := FindInstall(lines);
    if k == |lines| then Ok([])
    else
      var body := InstallBody(lines[k + 1..], 1);
      if body.None? then Err(UNTERMINATED_INSTALL) else Ok(body.value)
  }

  function Joined(body: seq<string>, rest: Option<seq<string>>): (r: Option<seq<string>>) {
    if rest.Some? then Some(body + rest.value) else None
  }

  lemma OneMore(line: string, rest: seq<string>, depth: nat)
    requires depth >= 1
    ensures Strip(line) != "end" ==>
      InstallBody([line] + rest, depth) ==
        Before(Strip(line), InstallBody(rest, if Opens(Strip(line)) then depth + 1 else depth))
    ensures Strip(line) == "end" && depth > 1 ==>
      InstallBody([line] + rest, depth) == Before(Strip(line), InstallBody(rest, depth - 1))
    ensures Strip(line) == "end" && depth == 1 ==> InstallBody([line] + rest, depth) == Some([])
  {
    assert ([line] + rest)[1..] == rest;
    hide Strip, Opens;
  }

  lemma JoinedJoined(a: seq<string>, b: seq<string>, rest: Option<seq<string>>)
    ensures Joined(a, Joined(b, rest)) == Joined(a + b, rest)
  {
    if rest.Some? { assert a + (b + rest.value) == a + b + rest.value; }
  }

  lemma BeforeIsJoined(s: string, rest: Option<seq<string>>)
    ensures Before(s, rest) == Joined([s], rest)
  {
  }

  lemma JoinedNothing(rest: Option<seq<string>>)
    ensures Joined([], rest) == rest
  {
    if rest.Some? { assert [] + rest.value == rest.value; }
  }

  lemma TakeLine(body: seq<string>, lines: seq<string>, i: nat, depth: nat)
    requires i < |lines| && depth >= 1
    ensures var s := Strip(lines[i]);
      var below := if s == "end" then depth - 1 else if Opens(s) then depth + 1 else depth;
      Joined(body, InstallBody(lines[i..], depth))
      == if below == 0 then Some(body) else Joined(body + [s], InstallBody(lines[i + 1..], below))
  {
    hide *;
    var s, rest := Strip(lines[i]), lines[i + 1..];
    var below := if s == "end" then depth - 1 else if Opens(s) then depth + 1 else depth;
    assert lines[i..] == [lines[i]] + rest;
    OneMore(lines[i], rest, depth);
    if below == 0 {
      JoinedDone(body);
    } else {
      BeforeIsJoined(s, InstallBody(rest, below));
      JoinedJoined(body, [s], InstallBody(rest, below));
    }
  }

  /** The extractor's loop over body lines with a block depth. */
  method ExtractBody(lines: seq<string>) returns (r: Option<seq<string>>)
    ensures r == InstallBody(lines, 1)
  {
    hide *;
    var body: seq<string> := [];
    var depth := 1;
    assert lines[0..] == lines;
    JoinedNothing(InstallBody(lines, 1));
    for i := 0 to |lines|
      invariant depth >= 1
      invariant InstallBody(lines, 1) == Joined(body, InstallBody(lines[i..], depth))
    {
      var stripped := Strip(lines[i]);
      TakeLine(body, lines, i, depth);
      if stripped == "end" {
        depth := depth - 1;
        if depth == 0 { return Some(body); }
      } else if Opens(stripped) {
        depth := depth + 1;
      }
      body := body + [stripped];
    }
    NoBody(depth);
    assert lines[|lines|..] == [];
    JoinedNone(body);
    return None;
  }

  lemma JoinedDone(body: seq<string>)
    ensures Joined(body, Some([])) == Some(body)
  {
    assert body + [] == body;
  }

  lemma JoinedNone(body: seq<string>)
    ensures Joined(body, None) == None
  {
  }

  lemma NoBody(depth: nat)
    requires depth >= 1
    ensures InstallBody([], depth) == None
  {
  }

  method ExtractInstallMethod(text: string) returns (r: Result<seq<string>>)
    ensures r == ExtractInstall(CodeLines(text))
  {
    hide CodeLines, FindInstall, InstallBody;
    var lines := CodeLines(text);
    var k := FindInstall(lines);
    if k == |lines| { return Ok([]); }
    var body := ExtractBody(lines[k + 1..]);
    if body.None? { return Err(UNTERMINATED_INSTALL); }
    return Ok(body.value);
  }

  /** Ruby code as a tree: plain lines, and blocks with an opening and a closing line. */
  datatype Code = Line(text: string) | Nested(open: string, body: seq<Code>, close: string)

  predicate Shaped(cs: seq<Code>) {
    forall c :: c in cs ==> match c
      case Line(t) => Strip(t) != "end" && !Opens(Strip(t))
      case Nested(open, body, close) =>
        Strip(open) != "end" && Opens(Strip(open)) && Strip(close) == "end" && Shaped(body)
  }

  function Flatten(cs: seq<Code>): (lines: seq<string>) {
    if cs == [] then []
    else (match cs[0]
          case Line(t) => [t]
          case Nested(open, body, close) => [open] + Flatten(body) + [close])
         + Flatten(cs[1..])
  }

  function Stripped(lines: seq<string>): (r: seq<string>) {
    if lines == [] then [] else [Strip(lines[0])] + Stripped(lines[1..])
  }

  lemma {:induction false} StrippedConcat(a: seq<string>, b: seq<string>)
    ensures Stripped(a + b) == Stripped(a) + Stripped(b)
  {
    if a == [] {
      assert a + b == b;
    } else {
      assert (a + b)[1..] == a[1..] + b;
      StrippedConcat(a[1..], b);
    }
  }

  lemma StrippedFirst(line: string, rest: seq<string>)
    ensures Stripped([line] + rest) == [Strip(line)] + Stripped(rest)
  {
    assert ([line] + rest)[1..] == rest;
  }

  lemma FlattenLine(cs: seq<Code>, tail: seq<string>)
    requires cs != [] && cs[0].Line?
    ensures Flatten(cs) == [cs[0].text] + Flatten(cs[1..])
    ensures Flatten(cs) + tail == [cs[0].text] + (Flatten(cs[1..]) + tail)
  {
  }

  lemma FlattenNested(cs: seq<Code>, tail: seq<string>)
    requires cs != [] && cs[0].Nested?
    ensures Flatten(cs) == [cs[0].open] + (Flatten(cs[0].body) + ([cs[0].close] + Flatten(cs[1..])))
    ensures Flatten(cs) + tail == [cs[0].open] + (Flatten(cs[0].body) + ([cs[0].close] + (Flatten(cs[1..]) + tail)))
  {
    hide *;
    FlattenOnce(cs);
    var o, f, c, r := [cs[0].open], Flatten(cs[0].body), [cs[0].close], Flatten(cs[1..]);
    Regroup(o, f, c, r);
    Regroup(o, f, c, r + tail);
    ConcatAssociative(o + f + c, r, tail);
  }

  lemma FlattenOnce(cs: seq<Code>)
    requires cs != [] && cs[0].Nested?
    ensures Flatten(cs) == [cs[0].open] + Flatten(cs[0].body) + [cs[0].close] + Flatten(cs[1..])
  {
  }

  lemma Regroup(a: seq<string>, b: seq<string>, c: seq<string>, d: seq<string>)
    ensures a + b + c + d == a + (b + (c + d))
  {
  }

  lemma FlattenNothing(tail: seq<string>)
    ensures Flatten([]) == [] && [] + tail == tail && Stripped([]) == []
  {
  }

  lemma ShapedParts(cs: seq<Code>)
    requires Shaped(cs) && cs != []
    ensures Shaped(cs[1..])
    ensures cs[0].Line? ==> Strip(cs[0].text) != "end" && !Opens(Strip(cs[0].text))
    ensures cs[0].Nested? ==>
      && Strip(cs[0].open) != "end" && Opens(Strip(cs[0].open)) && Strip(cs[0].close) == "end" && Shaped(cs[0].body)
  {
    hide Strip, Opens;
    assert cs[0] in cs;
    assert forall c :: c in cs[1..] ==> c in cs;
  }

  lemma {:induction false} WalkCode(cs: seq<Code>, tail: seq<string>, depth: nat)
    requires Shaped(cs) && depth >= 1
    ensures InstallBody(Flatten(cs) + tail, depth) == Joined(Stripped(Flatten(cs)), InstallBody(tail, depth))
    decreases cs
  {
    hide *;
    var rest := InstallBody(tail, depth);
    if cs == [] {
      FlattenNothing(tail);
      JoinedNothing(rest);
    } else {
      ShapedParts(cs);
      WalkCode(cs[1..], tail, depth);
      var more, last := Flatten(cs[1..]) + tail, Stripped(Flatten(cs[1..]));
      match cs[0] {
        case Line(t) =>
          FlattenLine(cs, tail);
          OneMore(t, more, depth);
          StrippedFirst(t, Flatten(cs[1..]));
          BeforeIsJoined(Strip(t), InstallBody(more, depth));
          JoinedJoined([Strip(t)], last, rest);
        case Nested(open, body, close) =>
          var inner := Flatten(body);
          FlattenNested(cs, tail);
          OneMore(open, inner + ([close] + more), depth);
          WalkCode(body, [close] + more, depth + 1);
          OneMore(close, more, depth + 1);
          BeforeIsJoined(Strip(close), InstallBody(more, depth));
          BeforeIsJoined(Strip(open), InstallBody(inner + ([close] + more), depth + 1));
          JoinedJoined([Strip(close)], last, rest);
          JoinedJoined(Stripped(inner), [Strip(close)] + last, rest);
          JoinedJoined([Strip(open)], Stripped(inner) + ([Strip(close)] + last), rest);
          StrippedFirst(open, inner + ([close] + Flatten(cs[1..])));
          StrippedConcat(inner, [close] + Flatten(cs[1..]));
          StrippedFirst(close, Flatten(cs[1..]));
      }
    }
  }

  /** However deeply blocks nest inside it, the method's body is found up to its own `end`. */
  lemma NestedBodyIsExtracted(cs: seq<Code>, close: string, rest: seq<string>)
    requires Shaped(cs) && Strip(close) == "end"
    ensures InstallBody(Flatten(cs) + ([close] + rest), 1) == Some(Stripped(Flatten(cs)))
  {
    hide *;
    WalkCode(cs, [close] + rest, 1);
    OneMore(close, rest, 1);
    JoinedDone(Stripped(Flatten(cs)));
  }

  // ----- the audited wheel list -----

  function WheelsWord(): string { "PLATFORM_WHEEL_RESOURCES" }

  /** `\s*$` with `$` at the end of any line. */
  predicate EndsLine(v: string) {
    v == "" || v[0] == '\n' || (IsSpace(v[0]) && EndsLine(v[1..]))
  }

  /** `\s*\].freeze\s*$`. */
  predicate ClosesList(u: string) {
    var rest := After(u, "].freeze");
    rest.Some? && EndsLine(rest.value)
  }

  /** The shortest stretch before the list closes. */
  function Region(u: string): (r: Option<string>) {
    if ClosesList(u) then Some("")
    else if u == "" then None
    else
      var r := Region(u[1..]);
      if r.Some? then Some([u[0]] + r.value) else None
  }

  /** `PLATFORM_WHEEL_RESOURCES = %w[ names ].freeze` from the start of a line. */
  function MatchWheels(t: string): (names: Option<string>) {
    var word := After(t, WheelsWord());
    if word.None? then None
    else
      var equals := After(word.value, "=");
      if equals.None? then None
      else
        var open := After(equals.value, "%w[");
        if open.None? then None else Region(SkipWs(open.value))
  }

  /** The first line start where the list matches. */
  function FindWheels(lines: seq<string>): (names: Option<string>) {
    if lines == [] then None
    else
      var m := MatchWheels(JoinLines(lines));
      if m.Some? then m else FindWheels(lines[1..])
  }

  function AuditedWheels(lines: seq<string>): (r: Result<set<string>>) {
    var m := FindWheels(lines);
    if m.None? then Ok({})
    else
      var names := Words(m.value);
      var distinct := set x | x in names;
      if |names| != |distinct| then Err(DUPLICATE_WHEELS) else Ok(distinct)
  }

  // ----- the verdict -----

  function VirtualenvWord(): string { "virtualenv_install_with_resources" }

  /** A line that calls the automatic install route. */
  predicate CallsVirtualenv(line: string) {
    var rest := After(line, VirtualenvWord());
    rest.Some? && (rest.value == "" || IsSpace(rest.value[0]) || rest.value[0] == '(')
  }

  predicate AnyCallsVirtualenv(lines: seq<string>) {
    lines != [] && (CallsVirtualenv(lines[0]) || AnyCallsVirtualenv(lines[1..]))
  }

  function CreateWord(): string { "venv = virtualenv_create(libexec, " }

  function RouteLines(): seq<string> {
    ["resources.each do |res|", "name = res.name", "wheel = resource(name).cached_download", "venv.pip_install wheel",
     "end"]
  }

  function LinkLine(): string { "venv.pip_install_and_link buildpath, " + "build_isolation: false" }

  /** The seven-line install method: create, install every resource, link the project offline. */
  predicate ApprovedRoute(install: seq<string>) {
    |install| == 7 && StartsWith(install[0], CreateWord()) && install[1..6] == RouteLines() && install[6] == LinkLine()
  }

  function PlatformNames(resources: seq<Resource>): (names: set<string>) {
    set r | r in resources && r.kind == PLATFORM_WHEEL :: r.name
  }

  function Violations(platform: set<string>, audited: set<string>, virtualenv: bool, approved: bool): (v: set<string>) {
    (if virtualenv then platform else platform - audited) + (if approved then {} else platform) + (audited - platform)
  }

  datatype Verification = Verification(
    resources: seq<Resource>, usesVirtualenv: bool, audited: set<string>, violations: set<string>)

  function Verify(text: string, filename: Filename): (r: Result<Verification>) {
    var parsed := Parse(text, filename);
    if parsed.Err? then Err(parsed.error)
    else
      var audited := AuditedWheels(CodeLines(text));
      if audited.Err? then Err(audited.error)
      else
        var install := ExtractInstall(CodeLines(text));
        if install.Err? then Err(install.error)
        else
          var virtualenv := AnyCallsVirtualenv(SplitOn(text, '\n'));
          Ok(Verification(parsed.value, virtualenv, audited.value,
                          Violations(PlatformNames(parsed.value), audited.value, virtualenv,
                            ApprovedRoute(install.value))))
  }

  /** Nothing is flagged exactly when there is nothing to audit at all, or the audited list is the set of
      platform wheels and they go through the approved route. */
  lemma NoViolationsIff(platform: set<string>, audited: set<string>, virtualenv: bool, approved: bool)
    ensures Violations(platform, audited, virtualenv, approved) == {} <==>
      platform == audited && (platform == {} || (!virtualenv && approved))
  {
    var v := Violations(platform, audited, virtualenv, approved);
    if platform == audited && (platform == {} || (!virtualenv && approved)) {
      assert v == {};
    }
    if v == {} {
      forall x ensures x in platform <==> x in audited {
        assert x !in v;
      }
      if platform != {} {
        var x :| x in platform;
        assert x !in v;
      }
    }
  }

  /** A platform wheel is flagged when it is not audited, or when anything goes through the automatic route or not
      through the approved one; an audited name is flagged when it is no platform wheel. */
  lemma ViolationsTell(platform: set<string>, audited: set<string>, virtualenv: bool, approved: bool, n: string)
    ensures n in Violations(platform, audited, virtualenv, approved) <==>
      if n in platform then n !in audited || virtualenv || !approved else n in audited
  {
  }

  method VerifyFormula(text: string, filename: Filename) returns (r: Result<Verification>)
    ensures r == Verify(text, filename)
    ensures r.Ok? ==> WellFormed(r.value.resources, filename)
  {
    hide CodeLines, ExtractInstall, AuditedWheels, AnyCallsVirtualenv, ApprovedRoute, Parse, WellFormed;
    var resources := ParseFormula(text, filename);
    if resources.Err? { return Err(resources.error); }
    ParsedIsWellFormed(text, filename);
    var audited := AuditedWheels(CodeLines(text));
    if audited.Err? { return Err(audited.error); }
    var install := ExtractInstallMethod(text);
    if install.Err? { return Err(install.error); }
    var virtualenv := AnyCallsVirtualenv(SplitOn(text, '\n'));
    var platform := PlatformNames(resources.value);
    var violations := if virtualenv then platform else platform - audited.value;
    if !ApprovedRoute(install.value) { violations := violations + platform; }
    violations := violations + (audited.value - platform);
    assert violations == Violations(platform, audited.value, virtualenv, ApprovedRoute(install.value));
    return Ok(Verification(resources.value, virtualenv, audited.value, violations));
  }
}
