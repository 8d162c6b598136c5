/** Loading a formula manifest, with the checks of the loader, and that what loads can be rendered. */
module FormulaManifest {
  import opened Options
  import opened Ordering
  import opened PyText
  import opened Formula
  import opened FormulaGenerate

  datatype RawResource = RawResource(name: string, url: string, sha256: string, role: string)

  /** The shape of an absolute HTTPS URL. */
  datatype Patterns = Patterns(httpsShape: string -> bool)

  // ----- Ruby control text -----

  predicate Letter(c: char) { 'a' <= c <= 'z' || 'A' <= c <= 'Z' }

  predicate AlnumAny(c: char) { Letter(c) || '0' <= c <= '9' }

  /** A delimiter of a percent literal. */
  predicate Delimits(s: string, j: nat) { j < |s| && !AlnumAny(s[j]) && !IsSpace(s[j]) && s[j] != '%' }

  predicate LiteralKind(c: char) { c in {'q', 'Q', 'w', 'W', 'i', 'I', 'x', 'r', 's'} }

  /** Interpolation, a command, or a percent literal starts here. */
  predicate ControlAt(s: string, i: nat) {
    && i < |s|
    && (|| (s[i] == '#' && i + 1 < |s| && s[i + 1] in {'{', '@', '$'})
        || s[i] == '`'
        || (s[i] == '%' && (Delimits(s, i + 1) || (i + 1 < |s| && LiteralKind(s[i + 1]) && Delimits(s, i + 2)))))
  }

  predicate RubyControl(s: string) { exists i :: 0 <= i < |s| && ControlAt(s, i) }

  lemma ControlFree(s: string)
    requires !RubyControl(s)
    ensures NoOpener(s)
  {
    forall k | 0 <= k < |s| ensures !OpensAt(s, k) {
      assert !ControlAt(s, k);
    }
  }

  predicate StandsAt(s: string, w: string, i: nat) { i + |w| <= |s| && s[i..i + |w|] == w }

  lemma StandsLater(s: string, w: string, i: nat)
    requires s != ""
    ensures StandsAt(s[1..], w, i) <==> StandsAt(s, w, i + 1)
  {
    if i + 1 + |w| <= |s| { assert s[1..][i..i + |w|] == s[i + 1..i + 1 + |w|]; }
  }

  lemma {:induction false} ContainsIff(s: string, w: string)
    ensures Contains(s, w) <==> exists i :: 0 <= i <= |s| && StandsAt(s, w, i)
  {
    hide StandsAt;
    StandsFirst(s, w);
    if s != "" {
      ContainsIff(s[1..], w);
      if i :| 0 <= i <= |s| && StandsAt(s, w, i) {
        if i > 0 { StandsLater(s, w, i - 1); }
      }
      if i :| 0 <= i <= |s[1..]| && StandsAt(s[1..], w, i) { StandsLater(s, w, i); }
    }
  }

  lemma StandsFirst(s: string, w: string)
    ensures StartsWith(s, w) <==> StandsAt(s, w, 0)
  {
  }

  /** A percent literal starts: after the sign and at most one of Ruby's kind letters comes a character that is no
      letter, digit, white space or percent sign. */
  ghost predicate LiteralAt(s: string, i: nat) {
    && i < |s| && s[i] == '%'
    && exists j :: i < j < |s| && (j == i + 1 || (j == i + 2 && s[i + 1] in "qQwWiIxrs")) && !IsSpace(s[j])
         && !('a' <= s[j] <= 'z') && !('A' <= s[j] <= 'Z') && !('0' <= s[j] <= '9') && s[j] != '%'
  }

  /** Control text is an interpolation, a command, or the start of a percent literal, anywhere. */
  lemma ControlIs(s: string)
    ensures RubyControl(s) <==>
      || Contains(s, "#{") || Contains(s, "#@") || Contains(s, "#$") || '`' in s
      || exists i :: 0 <= i < |s| && LiteralAt(s, i)
  {
    hide Contains, IsSpace, StandsAt, ControlAt, LiteralAt;
    ContainsIff(s, "#{");
    ContainsIff(s, "#@");
    ContainsIff(s, "#$");
    forall i: nat | i <= |s|
      ensures i < |s| ==>
        (ControlAt(s, i) <==>
           StandsAt(s, "#{", i) || StandsAt(s, "#@", i) || StandsAt(s, "#$", i) || s[i] == '`' || LiteralAt(s, i))
      ensures i == |s| ==> !StandsAt(s, "#{", i) && !StandsAt(s, "#@", i) && !StandsAt(s, "#$", i)
    {
      ControlAtIs(s, i);
    }
  }

  lemma ControlAtIs(s: string, i: nat)
    requires i <= |s|
    ensures i < |s| ==>
      (ControlAt(s, i) <==>
         StandsAt(s, "#{", i) || StandsAt(s, "#@", i) || StandsAt(s, "#$", i) || s[i] == '`' || LiteralAt(s, i))
    ensures i == |s| ==> !StandsAt(s, "#{", i) && !StandsAt(s, "#@", i) && !StandsAt(s, "#$", i)
  {
    hide IsSpace;
    if i + 1 < |s| { assert s[i..i + 2] == [s[i], s[i + 1]]; }
  }

  datatype LoadError =
    | EMPTY_RESOURCES | UNSAFE_RESOURCE_NAME | DUPLICATE_NAME | NORMALIZED_COLLISION | BAD_ROLE | BAD_URL | BAD_SHA
    | WRONG_BUILD_RESOURCES | LATE_BUILD_RESOURCE | BAD_PLATFORM_NAME | DUPLICATE_PLATFORM_NAME | MISSING_PLATFORM_NAME

  datatype Loaded = Loaded(resources: seq<ManifestResource>) | LoadFailed(error: LoadError)

  function BuildResources(): (names: seq<string>) {
    ["hatchling", "packaging", "pathspec", "pluggy", "trove-classifiers"]
  }

  predicate Required(s: string) {
    && s != "" && (forall i :: 0 <= i < |s| ==> s[i] >= ' ' && s[i] != '\U{7f}' && s[i] != '\\') && !RubyControl(s)
  }

  predicate HttpsUrl(s: string, p: Patterns) {
    Required(s) && p.httpsShape(s) && forall i :: 0 <= i < |s| ==> !IsQuote(s[i])
  }

  predicate Sha256(s: string) {
    Required(s) && |s| == 64 && forall i :: 0 <= i < |s| ==> '0' <= s[i] <= '9' || 'a' <= s[i] <= 'f'
  }

  /** Every run of joiners becomes one dash. */
  function Normalized(s: string): (r: string) {
    if s == "" then ""
    else if Joiner(s[0]) then
      var rest := Normalized(s[1..]);
      if rest != "" && rest[0] == '-' then rest else "-" + rest
    else [s[0]] + Normalized(s[1..])
  }

  predicate SingleJoiners(s: string) { forall i :: 0 <= i < |s| - 1 && Joiner(s[i]) ==> !Joiner(s[i + 1]) }

  /** A resource name is made of lower-case letters, digits and single joiners, none of them at an end. */
  lemma NameTells(s: string)
    ensures ResourceName(s) <==>
      && s != "" && !Joiner(s[0]) && !Joiner(s[|s| - 1]) && SingleJoiners(s)
      && forall i :: 0 <= i < |s| ==> 'a' <= s[i] <= 'z' || '0' <= s[i] <= '9' || s[i] in {'.', '_', '-'}
  {
  }

  /** A resource name is normalised character by character: each joiner becomes a dash. So two of them are told
      apart exactly when they differ in more than their joiners. */
  lemma {:induction false} NormalizedTells(s: string)
    requires SingleJoiners(s)
    ensures |Normalized(s)| == |s|
    ensures forall i :: 0 <= i < |s| ==> Normalized(s)[i] == if s[i] in {'.', '_', '-'} then '-' else s[i]
  {
    if s != "" {
      assert forall i :: 0 <= i < |s[1..]| ==> s[1..][i] == s[i + 1];
      NormalizedTells(s[1..]);
    }
  }

  predicate KnownRole(role: string) { role == "build" || role == "runtime" }

  function RoleOf(role: string): (r: Role) { if role == "build" then BUILD else RUNTIME }

  predicate Fine(r: RawResource, p: Patterns) {
    Required(r.name) && ResourceName(r.name) && KnownRole(r.role) && HttpsUrl(r.url, p) && Sha256(r.sha256)
  }

  function Load(r: RawResource): (m: ManifestResource) { ManifestResource(r.name, r.url, r.sha256, RoleOf(r.role)) }

  function LoadAll(raw: seq<RawResource>): (r: seq<ManifestResource>)
    ensures |r| == |raw| && forall i :: 0 <= i < |raw| ==> r[i] == Load(raw[i])
  {
    seq(|raw|, i requires 0 <= i < |raw| => Load(raw[i]))
  }

  /** No two names that differ only in their joiners. */
  ghost predicate NamesApart(raw: seq<RawResource>) {
    forall i, j :: 0 <= i < j < |raw| ==> Normalized(raw[i].name) != Normalized(raw[j].name)
  }

  /** The build resources are exactly the fixed ones, in order, in front. */
  ghost predicate BuildInFront(raw: seq<RawResource>) {
    && |BuildResources()| <= |raw|
    && (forall i :: 0 <= i < |raw| ==> (raw[i].role == "build" <==> i < |BuildResources()|))
    && (forall i :: 0 <= i < |BuildResources()| ==> raw[i].name == BuildResources()[i])
  }

  ghost predicate PlatformFine(platform: seq<string>, raw: seq<RawResource>) {
    && (forall n :: n in platform ==> ResourceName(n) && exists i :: 0 <= i < |raw| && raw[i].name == n)
    && Distinct(platform)
  }

  /** The loop over the resources, with the names seen so far. */
  method LoadEach(raw: seq<RawResource>, p: Patterns) returns (r: Loaded)
    ensures r.Loaded? <==> (forall x :: x in raw ==> Fine(x, p)) && NamesApart(raw)
    ensures r.Loaded? ==> r.resources == LoadAll(raw)
  {
    hide ResourceName, Required, HttpsUrl, Sha256, Normalized;
    var resources: seq<ManifestResource> := [];
    var seen: set<string>, seenNormalized: set<string> := {}, {};
    for i := 0 to |raw|
      invariant resources == LoadAll(raw[..i])
      invariant forall n :: n in seen <==> exists k :: 0 <= k < i && raw[k].name == n
      invariant forall n :: n in seenNormalized <==> exists k :: 0 <= k < i && Normalized(raw[k].name) == n
      invariant forall k :: 0 <= k < i ==> Fine(raw[k], p)
      invariant NamesApart(raw[..i])
    {
      var x := raw[i];
      assert x in raw;
      if !Required(x.name) || !ResourceName(x.name) { return LoadFailed(UNSAFE_RESOURCE_NAME); }
      if x.name in seen {
        Clash(raw, i);
        return LoadFailed(DUPLICATE_NAME);
      }
      if Normalized(x.name) in seenNormalized {
        Clash(raw, i);
        return LoadFailed(NORMALIZED_COLLISION);
      }
      seen := seen + {x.name};
      seenNormalized := seenNormalized + {Normalized(x.name)};
      if !KnownRole(x.role) { return LoadFailed(BAD_ROLE); }
      if !HttpsUrl(x.url, p) { return LoadFailed(BAD_URL); }
      if !Sha256(x.sha256) { return LoadFailed(BAD_SHA); }
      resources := resources + [Load(x)];
      assert resources == LoadAll(raw[..i + 1]);
    }
    assert raw[..|raw|] == raw;
    r := Loaded(resources);
  }

  lemma Clash(raw: seq<RawResource>, i: nat)
    requires i < |raw| && exists k :: 0 <= k < i && Normalized(raw[k].name) == Normalized(raw[i].name)
    ensures !NamesApart(raw)
  {
    hide Normalized;
  }

  /** The names of the build resources, in order. */
  function BuildNames(resources: seq<ManifestResource>): (names: seq<string>) {
    if resources == [] then []
    else (if resources[0].role == BUILD then [resources[0].name] else []) + BuildNames(resources[1..])
  }

  predicate AnyBuild(resources: seq<ManifestResource>) {
    resources != [] && (resources[0].role == BUILD || AnyBuild(resources[1..]))
  }

  lemma {:induction false} AnyBuildMeans(resources: seq<ManifestResource>)
    ensures AnyBuild(resources) <==> exists i :: 0 <= i < |resources| && resources[i].role == BUILD
    ensures !AnyBuild(resources) <==> BuildNames(resources) == []
  {
    if resources != [] {
      AnyBuildMeans(resources[1..]);
      if i :| 0 <= i < |resources| && resources[i].role == BUILD {
        assert i > 0 ==> resources[1..][i - 1].role == BUILD;
      }
      if i :| 0 <= i < |resources[1..]| && resources[1..][i].role == BUILD {
        assert resources[i + 1].role == BUILD;
      }
    }
  }

  lemma {:induction false} BuildNamesSplit(a: seq<ManifestResource>, b: seq<ManifestResource>)
    ensures BuildNames(a + b) == BuildNames(a) + BuildNames(b)
  {
    if a == [] {
      assert a + b == b;
    } else {
      assert (a + b)[1..] == a[1..] + b;
      BuildNamesSplit(a[1..], b);
    }
  }

  lemma {:induction false} BuildNamesBound(a: seq<ManifestResource>)
    ensures |BuildNames(a)| <= |a|
    ensures |BuildNames(a)| == |a| <==> forall i :: 0 <= i < |a| ==> a[i].role == BUILD
    ensures |BuildNames(a)| == |a| ==> forall i :: 0 <= i < |a| ==> BuildNames(a)[i] == a[i].name
  {
    if a != [] {
      BuildNamesBound(a[1..]);
      assert (forall i :: 0 <= i < |a| ==> a[i].role == BUILD) <==>
        a[0].role == BUILD && forall i :: 0 <= i < |a[1..]| ==> a[1..][i].role == BUILD by {
        if forall i :: 0 <= i < |a[1..]| ==> a[1..][i].role == BUILD {
          forall i | 1 <= i < |a| ensures a[i].role == BUILD { assert a[1..][i - 1].role == BUILD; }
        }
      }
    }
  }

  ghost predicate FrontIs(all: seq<ManifestResource>, names: seq<string>) {
    && |names| <= |all|
    && (forall i :: 0 <= i < |all| ==> (all[i].role == BUILD <==> i < |names|))
    && (forall i :: 0 <= i < |names| ==> all[i].name == names[i])
  }

  lemma SplitNames(all: seq<ManifestResource>, k: nat)
    requires k <= |all|
    ensures BuildNames(all) == BuildNames(all[..k]) + BuildNames(all[k..])
  {
    hide BuildNames;
    BuildNamesSplit(all[..k], all[k..]);
    assert all == all[..k] + all[k..];
  }

  lemma ChecksMeanFront(all: seq<ManifestResource>, names: seq<string>)
    requires BuildNames(all) == names && !AnyBuild(if |names| <= |all| then all[|names|..] else [])
    ensures FrontIs(all, names)
  {
    hide BuildNames, AnyBuild;
    var k := |names|;
    BuildNamesBound(all);
    SplitNames(all, k);
    var front, rest := all[..k], all[k..];
    AnyBuildMeans(rest);
    assert BuildNames(front) + [] == BuildNames(front);
    BuildNamesBound(front);
    forall i | 0 <= i < |all| ensures (all[i].role == BUILD <==> i < k) && (i < k ==> all[i].name == names[i]) {
      if i < k {
        assert front[i] == all[i];
      } else {
        assert rest[i - k] == all[i];
      }
    }
  }

  lemma FrontMeansChecks(all: seq<ManifestResource>, names: seq<string>)
    requires FrontIs(all, names)
    ensures BuildNames(all) == names && !AnyBuild(all[|names|..])
  {
    hide BuildNames, AnyBuild;
    var k := |names|;
    SplitNames(all, k);
    var front, rest := all[..k], all[k..];
    assert forall i :: 0 <= i < |rest| ==> rest[i] == all[k + i];
    AnyBuildMeans(rest);
    BuildNamesBound(front);
    assert BuildNames(front) == names;
    assert names + [] == names;
  }

  /** The two checks on build resources say exactly that the fixed ones stand in front. */
  lemma BuildChecks(raw: seq<RawResource>)
    requires forall x :: x in raw ==> KnownRole(x.role)
    ensures var all := LoadAll(raw); var k := |BuildResources()|;
      (BuildNames(all) == BuildResources() && !AnyBuild(if k <= |all| then all[k..] else [])) <==> BuildInFront(raw)
  {
    hide BuildResources, BuildNames, AnyBuild;
    var all, names := LoadAll(raw), BuildResources();
    assert forall i :: 0 <= i < |raw| ==> raw[i] in raw;
    assert FrontIs(all, names) <==> BuildInFront(raw);
    if FrontIs(all, names) { FrontMeansChecks(all, names); }
    if BuildNames(all) == names
      && !AnyBuild(if |names| <= |all| then all[|names|..] else []) { ChecksMeanFront(all, names); }
  }

  lemma {:induction false} PlatformNamesAre(platform: seq<string>, seen: set<string>)
    ensures (forall n :: n in platform ==> n in seen) <==> (set n | n in platform) - seen == {}
  {
    var missing := (set n | n in platform) - seen;
    if forall n :: n in platform ==> n in seen { assert missing == {}; }
    if missing == {} {
      forall n | n in platform ensures n in seen { assert n !in missing; }
    }
  }

  lemma {:induction false} DistinctIffSize(s: seq<string>)
    ensures |set x | x in s| <= |s|
    ensures |set x | x in s| == |s| <==> Distinct(s)
  {
    if s != [] {
      var t := s[1..];
      DistinctIffSize(t);
      assert forall i :: 0 <= i < |t| ==> t[i] == s[i + 1];
      if s[0] in t {
        assert (set x | x in s) == (set x | x in t);
        var i :| 0 <= i < |t| && t[i] == s[0];
        assert s[i + 1] == s[0];
      } else {
        assert (set x | x in s) == (set x | x in t) + {s[0]};
        assert Distinct(t) ==> Distinct(s);
        assert Distinct(s) ==> Distinct(t);
      }
    } else {
      assert (set x | x in s) == {};
    }
  }

  predicate AllNamed(names: seq<string>) {
    names == [] || (ResourceName(names[0]) && AllNamed(names[1..]))
  }

  lemma {:induction false} AllNamedMeans(names: seq<string>)
    ensures AllNamed(names) <==> forall n :: n in names ==> ResourceName(n)
  {
    hide ResourceName;
    if names != [] {
      AllNamedMeans(names[1..]);
      assert names == [names[0]] + names[1..];
    }
  }

  /** Loading succeeds exactly on well-formed resources with names apart, the fixed build resources in
      front, and platform wheels that name some of them. */
  method LoadManifestResources(raw: seq<RawResource>, platform: seq<string>, p: Patterns) returns (r: Loaded)
    ensures r.Loaded? <==>
      && raw != [] && (forall x :: x in raw ==> Fine(x, p)) && NamesApart(raw) && BuildInFront(raw)
      && PlatformFine(platform, raw)
    ensures r.Loaded? ==> r.resources == LoadAll(raw)
  {
    hide *;
    if raw == [] { return LoadFailed(EMPTY_RESOURCES); }
    r := LoadEach(raw, p);
    if r.LoadFailed? { return; }
    RolesKnown(raw, p);
    BuildChecks(raw);
    var k := |BuildResources()|;
    if BuildNames(r.resources) != BuildResources() { return LoadFailed(WRONG_BUILD_RESOURCES); }
    if AnyBuild(if k <= |r.resources| then r.resources[k..] else []) { return LoadFailed(LATE_BUILD_RESOURCE); }
    var seen := set x | x in raw :: x.name;
    AllNamedMeans(platform);
    DistinctIffSize(platform);
    PlatformNamesAre(platform, seen);
    PlatformFineIs(platform, raw, seen);
    if !AllNamed(platform) { return LoadFailed(BAD_PLATFORM_NAME); }
    if |platform| != |set n | n in platform| { return LoadFailed(DUPLICATE_PLATFORM_NAME); }
    if (set n | n in platform) - seen != {} { return LoadFailed(MISSING_PLATFORM_NAME); }
  }

  lemma RolesKnown(raw: seq<RawResource>, p: Patterns)
    requires forall x :: x in raw ==> Fine(x, p)
    ensures forall x :: x in raw ==> KnownRole(x.role)
  {
    hide ResourceName, Required, HttpsUrl, Sha256, KnownRole;
  }

  lemma PlatformFineIs(platform: seq<string>, raw: seq<RawResource>, seen: set<string>)
    requires seen == set x | x in raw :: x.name
    ensures PlatformFine(platform, raw) <==>
      (forall n :: n in platform ==> ResourceName(n)) && (forall n :: n in platform ==> n in seen) && Distinct(platform)
  {
    hide ResourceName, Distinct;
    forall n ensures n in seen <==> exists i :: 0 <= i < |raw| && raw[i].name == n {
      if n in seen {
        var x :| x in raw && x.name == n;
        var i :| 0 <= i < |raw| && raw[i] == x;
      }
      if i :| 0 <= i < |raw| && raw[i].name == n { assert raw[i] in raw; }
    }
  }

  /** What loads is what rendering relies on: fit resources with different names, and platform wheels
      that are different resource names. */
  lemma LoadedIsFit(raw: seq<RawResource>, platform: seq<string>, p: Patterns)
    requires raw != [] && (forall x :: x in raw ==> Fine(x, p)) && NamesApart(raw) && PlatformFine(platform, raw)
    ensures var all := LoadAll(raw);
      && all != [] && (forall r :: r in all ==> ResourceOk(r))
      && (forall i, j :: 0 <= i < j < |all| ==> all[i].name != all[j].name)
      && (forall n :: n in platform ==> ResourceName(n) && exists r :: r in all && r.name == n) && Distinct(platform)
  {
    hide ResourceName, Normalized, Distinct;
    var all := LoadAll(raw);
    forall r | r in all ensures ResourceOk(r) {
      var i :| 0 <= i < |all| && all[i] == r;
      assert raw[i] in raw;
      FineIsOk(raw[i], p);
    }
    forall i, j | 0 <= i < j < |all| ensures all[i].name != all[j].name {
      assert Normalized(raw[i].name) != Normalized(raw[j].name);
    }
    forall n | n in platform ensures exists r :: r in all && r.name == n {
      var i :| 0 <= i < |raw| && raw[i].name == n;
      assert all[i] in all;
    }
  }

  lemma FineIsOk(x: RawResource, p: Patterns)
    requires Fine(x, p)
    ensures ResourceOk(Load(x))
  {
    hide ResourceName;
  }

  // ----- the header -----

  datatype RawHeader = RawHeader(
    className: string, description: string, homepage: string, license: string, version: string, status: string,
    sourceUrl: string, sourceSha256: string, reviewedCommit: Option<string>, treeSha256: string, headUrl: string,
    branch: string, python: string, uvLockSha256: string, pinsSha256: string)

  predicate AllOf(s: string, first: char -> bool, rest: char -> bool) {
    s != "" && first(s[0]) && forall i :: 1 <= i < |s| ==> rest(s[i])
  }

  predicate Capital(c: char) { 'A' <= c <= 'Z' }

  predicate SafeTextChar(c: char) {
    AlnumAny(c) || c in {' ', '.', ',', '(', ')', '&', '+', ':', '/', '_', '-'}
  }

  predicate LicenseChar(c: char) { AlnumAny(c) || c in {'-', '.', '+'} }

  predicate BranchChar(c: char) { AlnumAny(c) || c in {'.', '_', '/', '-'} }

  predicate ClassName(s: string) { AllOf(s, Capital, AlnumAny) }

  predicate SafeText(s: string) { AllOf(s, AlnumAny, SafeTextChar) }

  predicate License(s: string) { AllOf(s, AlnumAny, LicenseChar) }

  /** A Git branch name without dot segments. */
  predicate Branch(s: string) {
    && AllOf(s, AlnumAny, BranchChar) && AlnumAny(s[|s| - 1])
    && forall segment :: segment in SplitOn(s, '/') ==> segment != "." && segment != ".."
  }

  predicate Hex(s: string, n: nat) { |s| == n && forall i :: 0 <= i < n ==> '0' <= s[i] <= '9' || 'a' <= s[i] <= 'f' }

  function Zeroes(): (s: string) { seq(64, i => '0') }

  /** Three numbers and a suffix of lower-case letters, digits, dots and dashes. */
  predicate Version(s: string) {
    exists i, j :: 0 < i && i + 1 < j && j + 1 < |s| && VersionAt(s, i, j)
  }

  predicate VersionAt(s: string, i: nat, j: nat)
    requires i < j < |s| - 1
  {
    && s[i] == '.' && s[j] == '.' && Digit(s[j + 1])
    && (forall k :: 0 <= k < i ==> Digit(s[k])) && (forall k :: i < k < j ==> Digit(s[k]))
    && (forall k :: j + 1 < k < |s| ==> Alnum(s[k]) || s[k] == '.' || s[k] == '-')
  }

  function UnapprovedWord(): string { "UNAPPROVED" }

  /** An approved source names its review and a real archive; a prepared one names neither. */
  predicate SourceFits(h: RawHeader) {
    if h.status == "approved" then
      h.reviewedCommit.Some? && h.sourceSha256 != Zeroes() && !Contains(h.sourceUrl, UnapprovedWord())
    else h.reviewedCommit.None? && h.sourceSha256 == Zeroes() && Contains(h.sourceUrl, UnapprovedWord())
  }

  predicate HeaderFine(h: RawHeader, p: Patterns) {
    && (h.status == "prepared" || h.status == "approved")
    && (h.reviewedCommit.Some? ==> Hex(h.reviewedCommit.value, 40))
    && HttpsUrl(h.sourceUrl, p) && Sha256(h.sourceSha256) && SourceFits(h)
    && Required(h.className) && ClassName(h.className)
    && Required(h.description) && SafeText(h.description)
    && HttpsUrl(h.homepage, p)
    && Required(h.license) && License(h.license)
    && Required(h.version) && Version(h.version)
    && Sha256(h.treeSha256)
    && HttpsUrl(h.headUrl, p)
    && Required(h.branch) && Branch(h.branch)
    && Required(h.python) && PythonName(h.python)
    && Sha256(h.uvLockSha256) && Sha256(h.pinsSha256)
  }

  /** An approved header names a review, a hash that is not all zeroes and an archive that does not say it is
      unapproved; a prepared one has none of the three. So each of the three tells which it is. */
  lemma ApprovalShows(h: RawHeader, p: Patterns)
    requires HeaderFine(h, p)
    ensures h.status in {"approved", "prepared"}
    ensures h.status == "approved" <==> h.reviewedCommit.Some?
    ensures h.status == "approved" <==> exists i :: 0 <= i < |h.sourceSha256| && h.sourceSha256[i] != '0'
    ensures h.status == "approved" <==> !Contains(h.sourceUrl, "UNAPPROVED")
    ensures h.reviewedCommit.Some? ==> |h.reviewedCommit.value| == 40
  {
    hide Required, HttpsUrl, ClassName, SafeText, License, Branch, Version, PythonName, Contains;
    assert |h.sourceSha256| == 64;
    if forall i :: 0 <= i < |h.sourceSha256| ==> h.sourceSha256[i] == '0' {
      assert h.sourceSha256 == Zeroes();
    }
  }

  /** What a header that loads has at least, field by field. */
  lemma LoadedHeaderTells(h: RawHeader, p: Patterns)
    requires HeaderFine(h, p)
    ensures 'A' <= h.className[0] <= 'Z' && forall c :: c in h.className ==> AlnumAny(c)
    ensures AlnumAny(h.description[0]) && forall c :: c in h.description ==> AlnumAny(c) || c in " .,()&+:/_-"
    ensures AlnumAny(h.license[0]) && forall c :: c in h.license ==> AlnumAny(c) || c in "-.+"
    ensures AlnumAny(h.branch[0]) && AlnumAny(h.branch[|h.branch| - 1])
    ensures forall c :: c in h.branch ==> AlnumAny(c) || c in "._/-"
    ensures "." !in SplitOn(h.branch, '/') && ".." !in SplitOn(h.branch, '/')
    ensures Digit(h.version[0]) && '.' in h.version
    ensures |h.sourceSha256| == |h.treeSha256| == |h.uvLockSha256| == |h.pinsSha256| == 64
    ensures forall url :: url in {h.homepage, h.sourceUrl, h.headUrl} ==>
      p.httpsShape(url) && !RubyControl(url) && '"' !in url && '\'' !in url && '\\' !in url
  {
    hide RubyControl, SourceFits, PythonName, Hex;
  }

  /** Two numbers are no version; with a third one, and any suffix of its kind, they are. */
  lemma VersionTells(major: string, minor: string, patch: char, suffix: string)
    requires major != "" && minor != "" && Digit(patch)
    requires (forall i :: 0 <= i < |major| ==> Digit(major[i])) && forall i :: 0 <= i < |minor| ==> Digit(minor[i])
    requires forall i :: 0 <= i < |suffix| ==> Alnum(suffix[i]) || suffix[i] in {'.', '-'}
    ensures Version(major + "." + minor + "." + [patch] + suffix)
    ensures !Version(major + "." + minor)
  {
    var s, i, j := major + "." + minor + "." + [patch] + suffix, |major|, |major| + 1 + |minor|;
    assert VersionAt(s, i, j);
    var t := major + "." + minor;
    forall k, l | 0 < k && k + 1 < l && l + 1 < |t| ensures !VersionAt(t, k, l) {
      assert t[k] == '.' ==> k == |major|;
    }
  }

  /** The manifest as the generator renders it. */
  function ToManifest(h: RawHeader, platform: seq<string>, resources: seq<ManifestResource>): (m: Manifest) {
    var commit := if h.reviewedCommit.Some? then h.reviewedCommit.value else "None";
    Manifest(h.uvLockSha256, h.pinsSha256, commit, h.treeSha256, h.className, h.description, h.homepage, h.sourceUrl,
             h.sourceSha256, h.license, h.headUrl, h.branch, h.python, platform, resources)
  }

  lemma HashIsSimple(s: string, n: nat)
    requires Hex(s, n)
    ensures Simple(s) && NoOpener(s)
  {
  }

  lemma ShaIsHex(s: string)
    requires Sha256(s)
    ensures Hex(s, 64)
  {
  }

  lemma AllOfIsSimple(s: string, first: char -> bool, rest: char -> bool)
    requires AllOf(s, first, rest)
    requires forall c :: first(c) || rest(c) ==> SafeTextChar(c)
    ensures Simple(s) && NoOpener(s)
  {
    assert forall i :: 0 <= i < |s| ==> SafeTextChar(s[i]);
    assert forall c :: SafeTextChar(c) ==> ' ' <= c <= '~' && !IsQuote(c) && c != '\\' && c != '%';
  }

  lemma UrlIsQuotable(s: string, p: Patterns)
    requires HttpsUrl(s, p)
    ensures Quotable(s) && NoOpener(s)
  {
    ControlFree(s);
  }

  lemma NoneIsSimple()
    ensures Simple("None")
  {
  }

  /** Whatever header loads, with resources that load, is a manifest the generator can render. */
  lemma LoadedIsAccepted(h: RawHeader, raw: seq<RawResource>, platform: seq<string>, p: Patterns)
    requires HeaderFine(h, p)
    requires raw != [] && (forall x :: x in raw ==> Fine(x, p)) && NamesApart(raw) && PlatformFine(platform, raw)
    ensures Accepted(ToManifest(h, platform, LoadAll(raw)))
  {
    hide Required, HttpsUrl, Sha256, ClassName, SafeText, License, Branch, Version, SourceFits, PythonName, Simple,
      Quotable, NoOpener, Hex, Fine, ResourceOk, ResourceName, Normalized, Distinct, RubyControl;
    LoadedIsFit(raw, platform, p);
    HeaderFits(h, p);
    HeaderFilled(h, p);
  }

  lemma HeaderFilled(h: RawHeader, p: Patterns)
    requires HeaderFine(h, p)
    ensures Filled(ToManifest(h, [], []))
  {
    hide ClassName, SafeText, License, Branch, Version, SourceFits, PythonName, Hex, RubyControl;
  }

  lemma HeaderFits(h: RawHeader, p: Patterns)
    requires HeaderFine(h, p)
    ensures var m := ToManifest(h, [], []);
      && Simple(m.uvLockSha256) && Simple(m.pinsSha256) && Simple(m.reviewedCommit) && Simple(m.treeSha256)
      && Simple(m.className) && Simple(m.description) && Quotable(m.homepage) && Quotable(m.sourceUrl)
      && Simple(m.sourceSha256) && Simple(m.license) && Quotable(m.headUrl) && Simple(m.headBranch)
        && PythonName(m.python)
      && NothingOpens(m)
  {
    hide Required, HttpsUrl, Sha256, AllOf, Version, SourceFits, PythonName, Simple, Quotable, NoOpener, Hex,
      RubyControl;
    ShaIsHex(h.uvLockSha256);
    ShaIsHex(h.pinsSha256);
    ShaIsHex(h.treeSha256);
    ShaIsHex(h.sourceSha256);
    HashIsSimple(h.uvLockSha256, 64);
    HashIsSimple(h.pinsSha256, 64);
    HashIsSimple(h.treeSha256, 64);
    HashIsSimple(h.sourceSha256, 64);
    NoneIsSimple();
    if h.reviewedCommit.Some? { HashIsSimple(h.reviewedCommit.value, 40); }
    AllOfIsSimple(h.className, Capital, AlnumAny);
    AllOfIsSimple(h.description, AlnumAny, SafeTextChar);
    AllOfIsSimple(h.license, AlnumAny, LicenseChar);
    AllOfIsSimple(h.branch, AlnumAny, BranchChar);
    UrlIsQuotable(h.homepage, p);
    UrlIsQuotable(h.sourceUrl, p);
    UrlIsQuotable(h.headUrl, p);
  }

  /** The loader: the resources first, then the header. What it returns can be rendered, and it returns
      something exactly when both parts are well formed. */
  method LoadManifest(h: RawHeader, raw: seq<RawResource>, platform: seq<string>, p: Patterns)
    returns (r: Option<Manifest>)
    ensures r.Some? <==>
      && raw != [] && (forall x :: x in raw ==> Fine(x, p)) && NamesApart(raw) && BuildInFront(raw)
      && PlatformFine(platform, raw) && HeaderFine(h, p)
    ensures r.Some? ==> r.value == ToManifest(h, platform, LoadAll(raw)) && Accepted(r.value)
  {
    hide *;
    var loaded := LoadManifestResources(raw, platform, p);
    if loaded.LoadFailed? || !HeaderFine(h, p) { return None; }
    LoadedIsAccepted(h, raw, platform, p);
    r := Some(ToManifest(h, platform, loaded.resources));
  }
}
