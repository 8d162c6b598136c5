/** The lock check of the release formula: which packages a locked release needs, and whether a
    manifest's resources are exactly those. */
module FormulaLock {

  /** `enabled` is the outcome of the dependency's marker on the release platform. */
  datatype Dependency = Dependency(name: string, enabled: bool, extras: set<string>)

  datatype Wheel = Wheel(url: string, hash: string)

  datatype Package = Package(
    name: string,
    dependencies: seq<Dependency>,
    optional: map<string, seq<Dependency>>,
    wheels: seq<Wheel>)

  type Lock = map<string, Package>

  datatype Resource = Resource(name: string, url: string, sha256: string)

  /** A package together with the extras it is wanted with. */
  datatype State = State(name: string, extras: set<string>)

  const ROOT_NAME := "autobrain"
  const ROOT := State(ROOT_NAME, {})
  const BUILD_RESOURCES := {"hatchling", "packaging", "pathspec", "pluggy", "trove-classifiers"}

  datatype Closure = Closed(names: set<string>) | Broken(culprit: State)

  // A package listed twice keeps its last entry.
  function Index(packages: seq<Package>): (lock: Lock) {
    if packages == [] then map[]
    else
      var last := packages[|packages| - 1];
      Index(packages[..|packages| - 1])[last.name := last]
  }

  /** The lock has exactly the packages listed. */
  lemma {:induction false} IndexHas(packages: seq<Package>, name: string)
    ensures name in Index(packages) <==> exists i :: 0 <= i < |packages| && packages[i].name == name
  {
    hide Index;
    if packages == [] {
      NoIndex();
    } else {
      var n := |packages| - 1;
      IndexHas(packages[..n], name);
      IndexNext(packages);
      assert forall i :: 0 <= i < n ==> packages[..n][i] == packages[i];
    }
  }

  lemma NoIndex()
    ensures Index([]) == map[]
  {
  }

  /** Under each name it has the one listed last. */
  lemma {:induction false} IndexTells(packages: seq<Package>, i: nat)
    requires i < |packages| && LastNamed(packages, i)
    ensures packages[i].name in Index(packages) && Index(packages)[packages[i].name] == packages[i]
    decreases |packages|
  {
    hide Index;
    var n := |packages| - 1;
    IndexNext(packages);
    if i < n {
      forall j | i < j < n ensures packages[..n][j].name != packages[..n][i].name {
        assert packages[j].name != packages[i].name;
      }
      IndexTells(packages[..n], i);
      assert packages[n].name != packages[i].name;
    }
  }

  lemma IndexNext(packages: seq<Package>)
    requires packages != []
    ensures var n := |packages| - 1; Index(packages) == Index(packages[..n])[packages[n].name := packages[n]]
  {
  }

  predicate LastNamed(packages: seq<Package>, i: nat)
    requires i < |packages|
  {
    forall j :: i < j < |packages| ==> packages[j].name != packages[i].name
  }

  // ----- what the lock means -----

  predicate Resolvable(lock: Lock, state: State) {
    state.name in lock && state.extras <= lock[state.name].optional.Keys
  }

  ghost predicate DependsOn(package: Package, extras: set<string>, d: Dependency) {
    d in package.dependencies || exists e :: e in extras && e in package.optional && d in package.optional[e]
  }

  /** An enabled edge of the dependency graph. */
  ghost predicate Edge(lock: Lock, from: State, to: State) {
    && Resolvable(lock, from)
    && exists d :: DependsOn(lock[from.name], from.extras, d) && d.enabled && to == State(d.name, d.extras)
  }

  ghost predicate Path(lock: Lock, p: seq<State>) {
    && p != [] && p[0] == ROOT
    && forall i :: 0 <= i < |p| - 1 ==> Edge(lock, p[i], p[i + 1])
  }

  ghost predicate Reachable(lock: Lock, state: State) {
    exists p :: Path(lock, p) && p[|p| - 1] == state
  }

  ghost predicate ReachableName(lock: Lock, name: string) {
    exists state :: Reachable(lock, state) && state.name == name
  }

  ghost predicate RuntimeName(lock: Lock, name: string) {
    name != ROOT_NAME && ReachableName(lock, name)
  }

  ghost predicate Sound(lock: Lock) {
    forall state :: Reachable(lock, state) ==> Resolvable(lock, state)
  }

  lemma RootReachable(lock: Lock)
    ensures Reachable(lock, ROOT)
  {
    assert Path(lock, [ROOT]);
  }

  lemma ReachableStep(lock: Lock, from: State, to: State)
    requires Reachable(lock, from) && Edge(lock, from, to)
    ensures Reachable(lock, to)
  {
    var p :| Path(lock, p) && p[|p| - 1] == from;
    var q := p + [to];
    forall i | 0 <= i < |q| - 1 ensures Edge(lock, q[i], q[i + 1]) {
      if i < |p| - 1 { assert Edge(lock, p[i], p[i + 1]); }
    }
    assert Path(lock, q);
  }

  /** A set of states that holds the root and follows every enabled edge holds all that is reachable. */
  lemma {:induction false} ClosedSetHoldsPath(lock: Lock, visited: set<State>, p: seq<State>)
    requires ROOT in visited && Path(lock, p)
    requires forall s, t :: s in visited && Edge(lock, s, t) ==> t in visited
    ensures p[|p| - 1] in visited
  {
    if |p| > 1 {
      var q := p[..|p| - 1];
      forall i | 0 <= i < |q| - 1 ensures Edge(lock, q[i], q[i + 1]) {
        assert Edge(lock, p[i], p[i + 1]);
      }
      ClosedSetHoldsPath(lock, visited, q);
      assert Edge(lock, p[|p| - 2], p[|p| - 1]);
    }
  }

  // ----- termination: only states some dependency mentions can be wanted -----

  function Mentioned(lock: Lock): set<State> {
    {ROOT}
    + (set n, d | n in lock && d in lock[n].dependencies :: State(d.name, d.extras))
    + (set n, e, d | n in lock && e in lock[n].optional && d in lock[n].optional[e] :: State(d.name, d.extras))
  }

  lemma EdgesStayMentioned(lock: Lock, from: State, to: State)
    requires Edge(lock, from, to)
    ensures to in Mentioned(lock)
  {
  }

  // ----- the worklist -----

  /** The items a state brings in: its own and those of each extra, whatever order the extras come in. */
  method DependencyItems(package: Package, extras: set<string>) returns (known: bool, items: seq<Dependency>)
    ensures known <==> extras <= package.optional.Keys
    ensures known ==> forall d :: d in items <==> DependsOn(package, extras, d)
  {
    items := package.dependencies;
    var rest := extras;
    while rest != {}
      invariant rest <= extras && extras - rest <= package.optional.Keys
      invariant forall d :: d in items <==> DependsOn(package, extras - rest, d)
    {
      var extra :| extra in rest;
      if extra !in package.optional { return false, []; }
      ghost var before := items;
      items := items + package.optional[extra];
      forall d ensures d in items <==> DependsOn(package, extras - (rest - {extra}), d) {
        assert d in items <==> d in before || d in package.optional[extra];
        assert forall e :: e in extras - (rest - {extra}) <==> e in extras - rest || e == extra;
      }
      rest := rest - {extra};
    }
    assert extras - rest == extras;
    known := true;
  }

  method PushTargets(pending: seq<State>, items: seq<Dependency>) returns (r: seq<State>)
    ensures forall s :: s in r <==> s in pending || exists d :: d in items && d.enabled && s == State(d.name, d.extras)
  {
    r := pending;
    for i := 0 to |items|
      invariant forall s :: s in r <==>
        s in pending || exists d :: d in items[..i] && d.enabled && s == State(d.name, d.extras)
    {
      ghost var before := r;
      assert items[..i + 1] == items[..i] + [items[i]];
      if items[i].enabled {
        r := r + [State(items[i].name, items[i].extras)];
      }
    }
    assert items[..|items|] == items;
  }

  ghost predicate Follows(lock: Lock, visited: set<State>, pending: seq<State>) {
    forall s, t :: s in visited && Edge(lock, s, t) ==> t in visited || t in pending
  }

  ghost predicate WorkInvariant(lock: Lock, visited: set<State>, pending: seq<State>) {
    && (ROOT in visited || ROOT in pending)
    && (forall s :: s in pending ==> Reachable(lock, s) && s in Mentioned(lock))
    && (forall s :: s in visited ==> Reachable(lock, s) && Resolvable(lock, s))
    && visited <= Mentioned(lock)
    && Follows(lock, visited, pending)
  }

  // `state` has been taken out of `pending` and was seen before.
  lemma SkipKeepsInvariant(lock: Lock, visited: set<State>, pending: seq<State>, state: State, rest: seq<State>)
    requires WorkInvariant(lock, visited, pending) && state in visited
    requires forall s :: s in pending <==> s == state || s in rest
    ensures WorkInvariant(lock, visited, rest)
  {
  }

  // `state` has been taken out of `pending` and its targets put in.
  lemma TargetsAreEdges(lock: Lock, state: State, items: seq<Dependency>, rest: seq<State>, pushed: seq<State>)
    requires Resolvable(lock, state)
    requires forall d :: d in items <==> DependsOn(lock[state.name], state.extras, d)
    requires forall s :: s in pushed <==>
      s in rest || exists d :: d in items && d.enabled && s == State(d.name, d.extras)
    ensures forall t :: t in pushed <==> t in rest || Edge(lock, state, t)
  {
  }

  lemma ExpandKeepsInvariant(
    lock: Lock, visited: set<State>, pending: seq<State>, state: State, rest: seq<State>, pending': seq<State>)
    requires WorkInvariant(lock, visited, pending) && state in pending && Resolvable(lock, state)
    requires forall s :: s in pending <==> s == state || s in rest
    requires forall t :: t in pending' <==> t in rest || Edge(lock, state, t)
    ensures WorkInvariant(lock, visited + {state}, pending')
  {
    forall t | t in pending' ensures Reachable(lock, t) && t in Mentioned(lock) {
      if Edge(lock, state, t) {
        ReachableStep(lock, state, t);
        EdgesStayMentioned(lock, state, t);
      }
    }
    forall s, t | s in visited + {state} && Edge(lock, s, t)
      ensures t in visited + {state} || t in pending'
    {
      if s in visited { assert t in visited || t in pending; }
    }
  }

  function NamesOf(visited: set<State>): (names: set<string>) {
    set s | s in visited && s.name != ROOT_NAME :: s.name
  }

  lemma NamesGrow(visited: set<State>, state: State)
    ensures NamesOf(visited + {state}) ==
      if state.name != ROOT_NAME then NamesOf(visited) + {state.name} else NamesOf(visited)
  {
  }

  lemma BrokenIsUnsound(lock: Lock, visited: set<State>, pending: seq<State>, state: State)
    requires WorkInvariant(lock, visited, pending) && state in pending && !Resolvable(lock, state)
    ensures Reachable(lock, state) && !Sound(lock)
  {
  }

  lemma WorkStarts(lock: Lock)
    ensures WorkInvariant(lock, {}, [ROOT])
  {
    RootReachable(lock);
  }

  lemma WorkShrinks(all: set<State>, visited: set<State>, state: State)
    requires state in all && state !in visited
    ensures |all - (visited + {state})| < |all - visited|
  {
    assert all - visited == (all - (visited + {state})) + {state};
  }

  lemma TakeOut(pending: seq<State>, k: nat)
    requires k < |pending|
    ensures forall s :: s in pending <==> s == pending[k] || s in pending[..k] + pending[k + 1..]
  {
    assert pending == pending[..k] + [pending[k]] + pending[k + 1..];
  }

  lemma ClosureReached(lock: Lock, visited: set<State>, names: set<string>)
    requires WorkInvariant(lock, visited, [])
    requires names == NamesOf(visited)
    ensures Sound(lock)
    ensures forall n :: n in names <==> RuntimeName(lock, n)
  {
    forall s | Reachable(lock, s) ensures s in visited {
      var p :| Path(lock, p) && p[|p| - 1] == s;
      ClosedSetHoldsPath(lock, visited, p);
    }
  }

  /** The worklist. `choose` is the position popped next; the source always pops the last one, and
      the outcome does not depend on it. It stops on every graph, cycles and extras included. */
  method RequiredRuntime(lock: Lock, choose: seq<State> -> nat) returns (r: Closure)
    requires forall p :: p != [] ==> choose(p) < |p|
    ensures r.Closed? <==> Sound(lock)
    ensures r.Closed? ==> forall n :: n in r.names <==> RuntimeName(lock, n)
    ensures r.Broken? ==> Reachable(lock, r.culprit) && !Resolvable(lock, r.culprit)
  {
    var names: set<string> := {};
    var visited: set<State> := {};
    var pending := [ROOT];
    WorkStarts(lock);
    while pending != []
      invariant WorkInvariant(lock, visited, pending)
      invariant names == NamesOf(visited)
      decreases |Mentioned(lock) - visited|, |pending|
    {
      var k := choose(pending);
      var state := pending[k];
      TakeOut(pending, k);
      var rest := pending[..k] + pending[k + 1..];
      if state in visited {
        SkipKeepsInvariant(lock, visited, pending, state, rest);
        pending := rest;
        continue;
      }
      if state.name !in lock {
        BrokenIsUnsound(lock, visited, pending, state);
        return Broken(state);
      }
      var known, items := DependencyItems(lock[state.name], state.extras);
      if !known {
        BrokenIsUnsound(lock, visited, pending, state);
        return Broken(state);
      }
      var pushed := PushTargets(rest, items);
      TargetsAreEdges(lock, state, items, rest, pushed);
      ExpandKeepsInvariant(lock, visited, pending, state, rest, pushed);
      WorkShrinks(Mentioned(lock), visited, state);
      NamesGrow(visited, state);
      pending, visited := pushed, visited + {state};
      if state.name != ROOT_NAME { names := names + {state.name}; }
    }
    assert pending == [];
    ClosureReached(lock, visited, names);
    r := Closed(names);
  }

  // ----- the whole check -----

  const HASH_PREFIX := "sha256:"

  /** The lock holds this exact wheel for the package. */
  predicate LockedArtifact(package: Package, url: string, sha256: string) {
    Wheel(url, HASH_PREFIX + sha256) in package.wheels
  }

  function Artifacts(package: Package): (s: set<(string, string)>) {
    set w | w in package.wheels && HASH_PREFIX <= w.hash :: (w.url, w.hash[|HASH_PREFIX|..])
  }

  lemma ArtifactsAreLocked(package: Package, url: string, sha256: string)
    ensures (url, sha256) in Artifacts(package) <==> LockedArtifact(package, url, sha256)
  {
    var w := Wheel(url, HASH_PREFIX + sha256);
    assert w.hash[|HASH_PREFIX|..] == sha256;
    if (url, sha256) in Artifacts(package) {
      var v :| v in package.wheels && HASH_PREFIX <= v.hash && (v.url, v.hash[|HASH_PREFIX|..]) == (url, sha256);
      assert v.hash == HASH_PREFIX + v.hash[|HASH_PREFIX|..];
      assert v == w;
    }
  }

  function NamesIn(resources: seq<Resource>): (names: set<string>) {
    set r | r in resources :: r.name
  }

  /** The manifest names the build resources and the reachable packages, and nothing else. */
  ghost predicate NamesMatch(lock: Lock, resources: seq<Resource>) {
    forall n :: n in NamesIn(resources) <==> n in BUILD_RESOURCES || RuntimeName(lock, n)
  }

  ghost predicate WheelsMatch(lock: Lock, resources: seq<Resource>) {
    forall r :: r in resources && RuntimeName(lock, r.name) ==>
      r.name in lock && LockedArtifact(lock[r.name], r.url, r.sha256)
  }

  ghost predicate LockAccepts(lock: Lock, resources: seq<Resource>) {
    Sound(lock) && NamesMatch(lock, resources) && WheelsMatch(lock, resources)
  }

  /** The manifest's wheels for runtime packages are all locked. */
  method PinsMatch(lock: Lock, runtime: set<string>, resources: seq<Resource>) returns (ok: bool)
    requires runtime <= lock.Keys
    ensures ok <==> PinsAreLocked(lock, runtime, resources)
  {
    for i := 0 to |resources|
      invariant forall r :: r in resources[..i] && r.name in runtime ==> LockedArtifact(lock[r.name], r.url, r.sha256)
    {
      var r := resources[i];
      assert resources[..i + 1] == resources[..i] + [r];
      if r.name in runtime {
        ArtifactsAreLocked(lock[r.name], r.url, r.sha256);
        if (r.url, r.sha256) !in Artifacts(lock[r.name]) { return false; }
      }
    }
    assert resources[..|resources|] == resources;
    ok := true;
  }

  ghost predicate PinsAreLocked(lock: Lock, runtime: set<string>, resources: seq<Resource>)
    requires runtime <= lock.Keys
  {
    forall r :: r in resources && r.name in runtime ==> LockedArtifact(lock[r.name], r.url, r.sha256)
  }

  lemma RuntimeIsLocked(lock: Lock, runtime: set<string>)
    requires Sound(lock)
    requires forall n :: n in runtime <==> RuntimeName(lock, n)
    ensures runtime <= lock.Keys
  {
    forall n | n in runtime ensures n in lock {
      var state :| Reachable(lock, state) && state.name == n;
      assert Resolvable(lock, state);
    }
  }

  lemma NamesMatchIff(lock: Lock, runtime: set<string>, resources: seq<Resource>)
    requires forall n :: n in runtime <==> RuntimeName(lock, n)
    ensures NamesMatch(lock, resources) <==> NamesIn(resources) == runtime + BUILD_RESOURCES
  {
    var names, required := NamesIn(resources), runtime + BUILD_RESOURCES;
    assert forall n :: n in required <==> n in BUILD_RESOURCES || RuntimeName(lock, n);
    if NamesMatch(lock, resources) {
      assert forall n :: n in names <==> n in required;
    }
  }

  lemma WheelsMatchIff(lock: Lock, runtime: set<string>, resources: seq<Resource>)
    requires runtime <= lock.Keys
    requires forall n :: n in runtime <==> RuntimeName(lock, n)
    ensures WheelsMatch(lock, resources) <==> PinsAreLocked(lock, runtime, resources)
  {
  }

  lemma MutualDifference(a: set<string>, b: set<string>)
    ensures a - b == {} && b - a == {} <==> a == b
  {
    if a - b == {} && b - a == {} {
      forall n ensures n in a <==> n in b {
        if n in a { assert n !in a - b; }
        if n in b { assert n !in b - a; }
      }
    }
  }

  /** Validation passes exactly when every reachable package resolves, the manifest names the
      reachable packages and the build resources and nothing else, and each reachable one is
      pinned to a wheel of the lock. */
  method ValidateLockedResources(packages: seq<Package>, resources: seq<Resource>) returns (ok: bool)
    ensures ok <==> LockAccepts(Index(packages), resources)
  {
    var lock := Index(packages);
    var closure := RequiredRuntime(lock, (p: seq<State>) => if p == [] then 0 else |p| - 1);
    if closure.Broken? { return false; }
    var runtime, manifestNames := closure.names, NamesIn(resources);
    RuntimeIsLocked(lock, runtime);
    NamesMatchIff(lock, runtime, resources);
    WheelsMatchIff(lock, runtime, resources);
    var required := runtime + BUILD_RESOURCES;
    MutualDifference(required, manifestNames);
    if required - manifestNames != {} { return false; }
    if manifestNames - required != {} { return false; }
    ok := PinsMatch(lock, runtime, resources);
  }

  // ----- one lock -----

  /** A project that wants `a` with its extra `x`, which needs `c`, and `b` on other platforms only. */
  function SamplePackages(): (packages: seq<Package>) {
    [ Package("autobrain", [Dependency("a", true, {"x"}), Dependency("b", false, {})], map[], []),
      Package("a", [], map["x" := [Dependency("c", true, {})], "y" := [Dependency("d", true, {})]],
              [Wheel("u", "sha256:1"), Wheel("v", "md5:2")]),
      Package("c", [], map[], [Wheel("w", "sha256:3")]) ]
  }

  function Sample(): (lock: Lock) {
    map["autobrain" := SamplePackages()[0], "a" := SamplePackages()[1], "c" := SamplePackages()[2]]
  }

  lemma SampleIndex()
    ensures Index(SamplePackages()) == Sample()
  {
    var p := SamplePackages();
    assert p[..2][..1] == [p[0]] && p[..2] == [p[0], p[1]] && [p[0]][..0] == [];
    assert Index([p[0]]) == map["autobrain" := p[0]];
    assert Index([p[0], p[1]]) == map["autobrain" := p[0], "a" := p[1]] by { assert [p[0], p[1]][..1] == [p[0]]; }
    assert p[..2] == [p[0], p[1]];
  }

  lemma SampleEdges(s: State, t: State)
    ensures Edge(Sample(), ROOT, t) <==> t == State("a", {"x"})
    ensures Edge(Sample(), State("a", {"x"}), t) <==> t == State("c", {})
    ensures !Edge(Sample(), State("c", {}), t)
  {
    var lock := Sample();
    var p := SamplePackages();
    assert p[0].dependencies[0] in p[0].dependencies;
    assert DependsOn(p[0], {}, Dependency("a", true, {"x"}));
    var c := Dependency("c", true, {});
    assert c in [c];
    assert "x" in {"x"} && c in p[1].optional["x"];
    assert DependsOn(p[1], {"x"}, c);
  }

  lemma SampleClosed(s: State)
    requires Reachable(Sample(), s)
    ensures s in {ROOT, State("a", {"x"}), State("c", {})}
  {
    hide Sample, Edge, DependsOn;
    var visited := {ROOT, State("a", {"x"}), State("c", {})};
    forall s, t | s in visited && Edge(Sample(), s, t) ensures t in visited { SampleEdges(s, t); }
    var p :| Path(Sample(), p) && p[|p| - 1] == s;
    ClosedSetHoldsPath(Sample(), visited, p);
  }

  lemma SampleReached()
    ensures Reachable(Sample(), State("a", {"x"})) && Reachable(Sample(), State("c", {}))
  {
    hide *;
    var a, c := State("a", {"x"}), State("c", {});
    RootReachable(Sample());
    SampleEdges(ROOT, a);
    SampleEdges(ROOT, c);
    ReachableStep(Sample(), ROOT, a);
    ReachableStep(Sample(), a, c);
  }

  lemma SampleResolves()
    ensures Resolvable(Sample(), ROOT) && Resolvable(Sample(), State("a", {"x"}))
    ensures Resolvable(Sample(), State("c", {}))
    ensures ROOT_NAME !in {"a", "c"}
  {
  }

  /** It needs exactly `a` and `c`: not `b`, which is disabled, and not what the other extra would bring. */
  lemma SampleNeeds(n: string)
    ensures RuntimeName(Sample(), n) <==> n == "a" || n == "c"
    ensures Sound(Sample())
  {
    SampleReached();
    SampleResolves();
    hide Reachable, Sample, Resolvable;
    forall s | Reachable(Sample(), s) ensures s in {ROOT, State("a", {"x"}), State("c", {})} { SampleClosed(s); }
  }

  function BuildResources(): (r: seq<Resource>) {
    [ Resource("hatchling", "", ""), Resource("packaging", "", ""), Resource("pathspec", "", ""),
      Resource("pluggy", "", ""), Resource("trove-classifiers", "", "") ]
  }

  lemma SampleNames()
    ensures NamesIn(BuildResources()) == BUILD_RESOURCES
    ensures forall a, b :: NamesIn(a + b) == NamesIn(a) + NamesIn(b)
    ensures forall r, s: Resource :: NamesIn([r]) == {r.name} && NamesIn([r, s]) == {r.name, s.name}
  {
    var r := BuildResources();
    assert r[0] in r && r[1] in r && r[2] in r && r[3] in r && r[4] in r;
  }

  lemma SampleWheels()
    ensures LockedArtifact(Sample()["a"], "u", "1") && !LockedArtifact(Sample()["a"], "v", "2")
    ensures LockedArtifact(Sample()["c"], "w", "3")
  {
    var p := SamplePackages();
    assert p[1].wheels[0] in p[1].wheels && p[2].wheels[0] in p[2].wheels;
    assert HASH_PREFIX + "1" == "sha256:1" && HASH_PREFIX + "3" == "sha256:3";
    assert (HASH_PREFIX + "2")[0] == 's';
  }

  /** A manifest passes with the build resources, `a` and `c` and their locked wheels; not without `c`, and not with a
      hash of another kind. */
  lemma SampleValidates()
    ensures var a, c := Resource("a", "u", "1"), Resource("c", "w", "3");
      && LockAccepts(Index(SamplePackages()), BuildResources() + [a, c])
      && !LockAccepts(Index(SamplePackages()), BuildResources() + [a])
      && !LockAccepts(Index(SamplePackages()), BuildResources() + [Resource("a", "v", "2"), c])
  {
    hide *;
    var a, c, bad := Resource("a", "u", "1"), Resource("c", "w", "3"), Resource("a", "v", "2");
    SampleIndex();
    SampleNeeds("a");
    SampleNames();
    SampleWheels();
    BuildNames();
    forall n ensures RuntimeName(Sample(), n) <==> n == "a" || n == "c" { SampleNeeds(n); }
    SampleHas();
    AcceptsWhen(Sample(), a, c);
    MissingName(Sample(), BuildResources() + [a], "c");
    UnlockedWheel(Sample(), BuildResources() + [bad, c], bad);
  }

  lemma SampleHas()
    ensures "a" in Sample() && "c" in Sample()
  {
  }

  lemma AcceptsWhen(lock: Lock, a: Resource, c: Resource)
    requires Sound(lock) && forall n :: RuntimeName(lock, n) <==> n == a.name || n == c.name
    requires NamesIn(BuildResources()) == BUILD_RESOURCES
    requires forall x, y :: NamesIn(x + y) == NamesIn(x) + NamesIn(y)
    requires NamesIn([a, c]) == {a.name, c.name}
    requires forall r :: r in BuildResources() ==> r.name !in {a.name, c.name}
    requires a.name != c.name && a.name in lock && LockedArtifact(lock[a.name], a.url, a.sha256)
    requires c.name in lock && LockedArtifact(lock[c.name], c.url, c.sha256)
    ensures LockAccepts(lock, BuildResources() + [a, c])
  {
    hide Sound, RuntimeName, LockedArtifact, NamesIn, BuildResources, BUILD_RESOURCES;
    var all := BuildResources() + [a, c];
    assert NamesIn(all) == BUILD_RESOURCES + {a.name, c.name};
    assert forall r :: r in all ==> r in BuildResources() || r == a || r == c;
  }

  lemma MissingName(lock: Lock, resources: seq<Resource>, n: string)
    requires RuntimeName(lock, n) && n !in NamesIn(resources)
    ensures !LockAccepts(lock, resources)
  {
    hide Sound, RuntimeName, NamesIn;
  }

  lemma UnlockedWheel(lock: Lock, resources: seq<Resource>, r: Resource)
    requires r in resources && RuntimeName(lock, r.name)
    requires r.name in lock && !LockedArtifact(lock[r.name], r.url, r.sha256)
    ensures !LockAccepts(lock, resources)
  {
    hide Sound, RuntimeName, NamesIn, LockedArtifact;
  }

  lemma BuildNames()
    ensures forall r :: r in BuildResources() ==> r.name !in {"a", "c"}
    ensures "a" !in BUILD_RESOURCES && "c" !in BUILD_RESOURCES
  {
  }
}
