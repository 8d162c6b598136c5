/** The leakage scan reads what it cannot scan as text through the run cache. When that changes its verdict. */
module LeakageCache {
  import opened BenchmarkBuild
  import opened RunCache
  import opened PyText

  /** The serialised form of a scanned value holds a forbidden token or a marker. */
  predicate LeaksAs(text: string, tokens: seq<string>, rules: ScanRules) { Leaks(Scanned("", text), tokens, rules) }

  function Serializer(scalars: Scalars): (f: Json -> string) { (v: Json) => CanonicalJson(v, scalars) }

  /** The table of texts after some values, from what was in it before the scan. */
  function TableFrom(stored: map<Frozen, string>, values: seq<Json>, f: Json -> string): (t: map<Frozen, string>) {
    if values == [] then stored
    else
      var last := values[|values| - 1];
      Remember(TableFrom(stored, values[..|values| - 1], f), Freeze(last), f(last))
  }

  /** What the scan reads for a value. */
  function ReadFrom(stored: map<Frozen, string>, values: seq<Json>, f: Json -> string, i: nat): (text: string)
    requires i < |values|
  {
    Lookup(TableFrom(stored, values[..i], f), Freeze(values[i]), f(values[i]))
  }

  /** No value scanned before has its key. */
  predicate FirstOfItsKey(values: seq<Json>, i: nat)
    requires i < |values|
  {
    forall j :: 0 <= j < i ==> Freeze(values[j]) != Freeze(values[i])
  }

  lemma TableNext(stored: map<Frozen, string>, values: seq<Json>, f: Json -> string, i: nat)
    requires i < |values|
    ensures TableFrom(stored, values[..i + 1], f) ==
      Remember(TableFrom(stored, values[..i], f), Freeze(values[i]), f(values[i]))
  {
    hide Freeze;
    assert values[..i + 1][..i] == values[..i];
  }

  lemma TableStart(stored: map<Frozen, string>, values: seq<Json>, f: Json -> string)
    ensures TableFrom(stored, values[..0], f) == stored
  {
  }

  /** What is stored stays. */
  lemma {:induction false} StoredStays(stored: map<Frozen, string>, values: seq<Json>, f: Json -> string, n: nat)
    requires n <= |values|
    ensures forall k :: k in stored ==>
      k in TableFrom(stored, values[..n], f) && TableFrom(stored, values[..n], f)[k] == stored[k]
    decreases n
  {
    hide Freeze;
    if n == 0 {
      TableStart(stored, values, f);
    } else {
      StoredStays(stored, values, f, n - 1);
      TableNext(stored, values, f, n - 1);
    }
  }

  /** What is new was read for some value with its key. */
  lemma {:induction false} NewHasValue(
    stored: map<Frozen, string>, values: seq<Json>, f: Json -> string, n: nat, k: Frozen)
    requires n <= |values| && k in TableFrom(stored, values[..n], f) && k !in stored
    ensures exists i: nat :: i < n && Freeze(values[i]) == k
    decreases n
  {
    hide Freeze;
    TableStart(stored, values, f);
    if n > 0 {
      TableNext(stored, values, f, n - 1);
      if k in TableFrom(stored, values[..n - 1], f) { NewHasValue(stored, values, f, n - 1, k); }
    }
  }

  /** Once the first value with a new key is read, its text stays. */
  lemma {:induction false} FirstStays(
    stored: map<Frozen, string>, values: seq<Json>, f: Json -> string, i: nat, n: nat)
    requires i < n <= |values| && FirstOfItsKey(values, i) && Freeze(values[i]) !in stored
    ensures Freeze(values[i]) in TableFrom(stored, values[..n], f)
    ensures TableFrom(stored, values[..n], f)[Freeze(values[i])] == f(values[i])
    decreases n
  {
    hide Freeze, TableFrom;
    TableNext(stored, values, f, n - 1);
    if i < n - 1 {
      FirstStays(stored, values, f, i, n - 1);
    } else {
      FirstIsNew(stored, values, f, i);
    }
  }

  lemma FirstIsNew(stored: map<Frozen, string>, values: seq<Json>, f: Json -> string, i: nat)
    requires i < |values| && FirstOfItsKey(values, i) && Freeze(values[i]) !in stored
    ensures Freeze(values[i]) !in TableFrom(stored, values[..i], f)
  {
    hide Freeze, TableFrom;
    if Freeze(values[i]) in TableFrom(stored, values[..i], f) { NewHasValue(stored, values, f, i, Freeze(values[i])); }
  }

  /** The scan reads the stored text, or that of the first value with the key. */
  lemma ReadsStored(stored: map<Frozen, string>, values: seq<Json>, f: Json -> string, i: nat)
    requires i < |values| && Freeze(values[i]) in stored
    ensures ReadFrom(stored, values, f, i) == stored[Freeze(values[i])]
  {
    hide Freeze;
    StoredStays(stored, values, f, i);
  }

  lemma ReadsTheFirst(stored: map<Frozen, string>, values: seq<Json>, f: Json -> string, i: nat) returns (first: nat)
    requires i < |values| && Freeze(values[i]) !in stored
    ensures first <= i && Freeze(values[first]) == Freeze(values[i]) && FirstOfItsKey(values, first)
    ensures ReadFrom(stored, values, f, i) == f(values[first])
  {
    first := FirstWithKey(values, i);
    hide Freeze, TableFrom, FirstOfItsKey;
    if first < i { FirstStays(stored, values, f, first, i); } else { FirstIsNew(stored, values, f, i); }
  }

  lemma FirstWithKey(values: seq<Json>, i: nat) returns (first: nat)
    requires i < |values|
    ensures first <= i && Freeze(values[first]) == Freeze(values[i]) && FirstOfItsKey(values, first)
  {
    first := 0;
    while Freeze(values[first]) != Freeze(values[i])
      invariant first <= i && forall j :: 0 <= j < first ==> Freeze(values[j]) != Freeze(values[i])
      decreases i - first
    {
      first := first + 1;
    }
  }

  lemma FirstReadsItself(stored: map<Frozen, string>, values: seq<Json>, f: Json -> string, i: nat)
    requires i < |values| && FirstOfItsKey(values, i) && Freeze(values[i]) !in stored
    ensures ReadFrom(stored, values, f, i) == f(values[i])
  {
    FirstIsNew(stored, values, f, i);
    hide Freeze;
  }

  // ----- the verdict -----

  /** The scan with a cache finds nothing. */
  ghost predicate CachedClean(
    stored: map<Frozen, string>, values: seq<Json>, f: Json -> string, tokens: seq<string>, rules: ScanRules)
  {
    forall i: nat :: i < |values| ==> !LeaksAs(ReadFrom(stored, values, f, i), tokens, rules)
  }

  /** The scan without one finds nothing. */
  ghost predicate PlainClean(values: seq<Json>, f: Json -> string, tokens: seq<string>, rules: ScanRules) {
    forall i: nat :: i < |values| ==> !LeaksAs(f(values[i]), tokens, rules)
  }

  /** A text from before the scan stands for the value, and leaks. */
  ghost predicate StoredLeaks(
    stored: map<Frozen, string>, values: seq<Json>, tokens: seq<string>, rules: ScanRules, i: nat)
    requires i < |values|
  {
    Freeze(values[i]) in stored && LeaksAs(stored[Freeze(values[i])], tokens, rules)
  }

  /** The value is the first with its key, also since before the scan, and leaks. */
  ghost predicate FirstLeaks(
    stored: map<Frozen, string>, values: seq<Json>, f: Json -> string, tokens: seq<string>, rules: ScanRules, i: nat)
    requires i < |values|
  {
    Freeze(values[i]) !in stored && FirstOfItsKey(values, i) && LeaksAs(f(values[i]), tokens, rules)
  }

  /** Whatever a cache holds when the scan begins: the scan is clean exactly when neither a stored text of
      one of its values nor the first text of a new key leaks. */
  lemma CachedScanExact(
    stored: map<Frozen, string>, values: seq<Json>, f: Json -> string, tokens: seq<string>, rules: ScanRules)
    ensures CachedClean(stored, values, f, tokens, rules) <==>
      forall i: nat :: i < |values| ==>
        !StoredLeaks(stored, values, tokens, rules, i) && !FirstLeaks(stored, values, f, tokens, rules, i)
  {
    hide Freeze, FirstOfItsKey, LeaksAs, ReadFrom;
    if CachedClean(stored, values, f, tokens, rules) {
      forall i: nat | i < |values|
        ensures !StoredLeaks(stored, values, tokens, rules, i) && !FirstLeaks(stored, values, f, tokens, rules, i)
      {
        assert !LeaksAs(ReadFrom(stored, values, f, i), tokens, rules);
        if Freeze(values[i]) in stored {
          ReadsStored(stored, values, f, i);
        } else if FirstOfItsKey(values, i) {
          FirstReadsItself(stored, values, f, i);
        }
      }
    }
    if forall i: nat :: i < |values| ==>
      !StoredLeaks(stored, values, tokens, rules, i) && !FirstLeaks(stored, values, f, tokens, rules, i)
    {
      forall i: nat | i < |values| ensures !LeaksAs(ReadFrom(stored, values, f, i), tokens, rules) {
        assert !StoredLeaks(stored, values, tokens, rules, i);
        if Freeze(values[i]) in stored {
          ReadsStored(stored, values, f, i);
        } else {
          var first := ReadsTheFirst(stored, values, f, i);
          assert !FirstLeaks(stored, values, f, tokens, rules, first);
        }
      }
    }
  }

  /** A false alarm is raised exactly when nothing leaks but a text from before the scan, which stands for
      one of the values. A cache without texts of theirs raises none. */
  lemma FalseAlarmIff(
    stored: map<Frozen, string>, values: seq<Json>, f: Json -> string, tokens: seq<string>, rules: ScanRules)
    ensures PlainClean(values, f, tokens, rules) && !CachedClean(stored, values, f, tokens, rules) <==>
      && PlainClean(values, f, tokens, rules)
      && exists i: nat :: i < |values| && StoredLeaks(stored, values, tokens, rules, i)
  {
    CachedScanExact(stored, values, f, tokens, rules);
    hide Freeze, FirstOfItsKey, LeaksAs, StoredLeaks, CachedClean;
  }

  /** A leak is missed exactly when every value that leaks is read as another text: one from before, or that
      of an earlier value, and none of these leaks. */
  lemma MissedLeakIff(
    stored: map<Frozen, string>, values: seq<Json>, f: Json -> string, tokens: seq<string>, rules: ScanRules)
    ensures CachedClean(stored, values, f, tokens, rules) && !PlainClean(values, f, tokens, rules) <==>
      && (exists i: nat :: i < |values| && LeaksAs(f(values[i]), tokens, rules))
      && (forall i: nat :: i < |values| ==> !StoredLeaks(stored, values, tokens, rules, i))
      && (forall i: nat :: i < |values| && LeaksAs(f(values[i]), tokens, rules) ==>
            Freeze(values[i]) in stored || !FirstOfItsKey(values, i))
  {
    CachedScanExact(stored, values, f, tokens, rules);
    hide Freeze, FirstOfItsKey, LeaksAs, StoredLeaks, CachedClean;
    assert forall i: nat :: i < |values| ==>
      (FirstLeaks(stored, values, f, tokens, rules, i) <==>
         LeaksAs(f(values[i]), tokens, rules) && !(Freeze(values[i]) in stored || !FirstOfItsKey(values, i)));
  }

  /** On values of one schema, with nothing stored before, the cache changes nothing about the verdict. */
  lemma TypedScanUnchanged(values: seq<Json>, s: Schema, scalars: Scalars, tokens: seq<string>, rules: ScanRules)
    requires forall v :: v in values ==> HasType(v, s)
    ensures var f := Serializer(scalars);
      CachedClean(map[], values, f, tokens, rules) <==> PlainClean(values, f, tokens, rules)
  {
    hide Freeze, HasType, LeaksAs, Serializer, FirstOfItsKey, ReadFrom;
    var f := Serializer(scalars);
    forall i: nat | i < |values| ensures ReadFrom(map[], values, f, i) == f(values[i]) {
      var first := ReadsTheFirst(map[], values, f, i);
      assert values[first] in values && values[i] in values;
      FreezeInjective(values[first], values[i], s);
    }
    if CachedClean(map[], values, f, tokens, rules) {
      forall i: nat | i < |values| ensures !LeaksAs(f(values[i]), tokens, rules) {
        assert !LeaksAs(ReadFrom(map[], values, f, i), tokens, rules);
      }
    }
  }

  /** The scan of the serialised values, one after the other, through a cache that somebody may have used
      before. */
  method ScanSerialized(cache: Cache, values: seq<Json>, tokens: seq<string>, rules: ScanRules) returns (clean: bool)
    modifies cache
    ensures clean <==> CachedClean(old(cache.leakageSerialized), values, Serializer(cache.scalars), tokens, rules)
    ensures cache.leakageSerialized == TableFrom(old(cache.leakageSerialized), values, Serializer(cache.scalars))
  {
    hide Freeze, CanonicalJson, LeaksAs;
    ghost var stored, f := cache.leakageSerialized, Serializer(cache.scalars);
    clean := true;
    TableStart(stored, values, f);
    for i := 0 to |values|
      invariant cache.leakageSerialized == TableFrom(stored, values[..i], f)
      invariant clean <==> forall k: nat :: k < i ==> !LeaksAs(ReadFrom(stored, values, f, k), tokens, rules)
    {
      TableNext(stored, values, f, i);
      var text := cache.Serialize(values[i], true);
      assert text == ReadFrom(stored, values, f, i);
      if LeaksAs(text, tokens, rules) { clean := false; }
    }
    assert values[..|values|] == values;
  }

  // ----- the scan of a build -----

  /** The key of the two empty values. */
  function EmptyKey(): (key: Frozen) { FTuple([]) }

  lemma EmptyKeys(scalars: Scalars)
    ensures Freeze(JObj(map[])) == EmptyKey() && Freeze(JList([])) == EmptyKey()
    ensures Serializer(scalars)(JObj(map[])) == "{}" && Serializer(scalars)(JList([])) == "[]"
  {
    EmptyValuesCollide(scalars);
    assert Freeze(JList([])) == FTuple([]);
  }

  lemma NonEmptyKey(v: Json)
    requires (v.JObj? && v.fields.Keys != {}) || (v.JList? && v.items != [])
    ensures Freeze(v) != EmptyKey()
  {
    hide Freeze;
    if v.JObj? { FreezeObject(v); } else { FreezeList(v); }
  }

  /** The scan of a build serialises its metadata, then its arguments, then its environment. With no
      arguments and no environment, on a cache without texts, the environment is read as the empty argument
      list: a leak in it is missed exactly when neither the metadata nor `[]` leaks and `{}` does. */
  lemma EmptyArgumentsScan(metadata: Json, scalars: Scalars, tokens: seq<string>, rules: ScanRules)
    requires metadata.JObj? && metadata.fields.Keys != {}
    ensures var f, values := Serializer(scalars), [metadata, JList([]), JObj(map[])];
      && (CachedClean(map[], values, f, tokens, rules) <==>
            !LeaksAs(f(metadata), tokens, rules) && !LeaksAs("[]", tokens, rules))
      && (PlainClean(values, f, tokens, rules) <==>
            && !LeaksAs(f(metadata), tokens, rules) && !LeaksAs("[]", tokens, rules)
            && !LeaksAs("{}", tokens, rules))
  {
    EmptyKeys(scalars);
    NonEmptyKey(metadata);
    hide Freeze, LeaksAs, Serializer;
    var f, values := Serializer(scalars), [metadata, JList([]), JObj(map[])];
    CachedScanExact(map[], values, f, tokens, rules);
    assert FirstOfItsKey(values, 0) && FirstOfItsKey(values, 1) && Freeze(values[2]) == Freeze(values[1]);
    ThreeValues(map[], values, f, tokens, rules);
  }

  lemma ThreeValues(
    stored: map<Frozen, string>, values: seq<Json>, f: Json -> string, tokens: seq<string>, rules: ScanRules)
    requires |values| == 3
    ensures (forall i: nat :: i < |values| ==>
        !StoredLeaks(stored, values, tokens, rules, i) && !FirstLeaks(stored, values, f, tokens, rules, i)) <==>
      && !StoredLeaks(stored, values, tokens, rules, 0) && !FirstLeaks(stored, values, f, tokens, rules, 0)
      && !StoredLeaks(stored, values, tokens, rules, 1) && !FirstLeaks(stored, values, f, tokens, rules, 1)
      && !StoredLeaks(stored, values, tokens, rules, 2) && !FirstLeaks(stored, values, f, tokens, rules, 2)
    ensures PlainClean(values, f, tokens, rules) <==>
      && !LeaksAs(f(values[0]), tokens, rules) && !LeaksAs(f(values[1]), tokens, rules)
      && !LeaksAs(f(values[2]), tokens, rules)
  {
    hide StoredLeaks, FirstLeaks, LeaksAs;
  }

  /** Called directly, without metadata either, the scan reads all three as `{}`. */
  lemma NothingGivenScan(scalars: Scalars, tokens: seq<string>, rules: ScanRules)
    ensures var f, values := Serializer(scalars), [JObj(map[]), JList([]), JObj(map[])];
      && (CachedClean(map[], values, f, tokens, rules) <==> !LeaksAs("{}", tokens, rules))
      && (PlainClean(values, f, tokens, rules) <==> !LeaksAs("{}", tokens, rules) && !LeaksAs("[]", tokens, rules))
  {
    EmptyKeys(scalars);
    hide Freeze, LeaksAs, Serializer;
    var f, values := Serializer(scalars), [JObj(map[]), JList([]), JObj(map[])];
    CachedScanExact(map[], values, f, tokens, rules);
    assert FirstOfItsKey(values, 0) && Freeze(values[1]) == Freeze(values[0]) && Freeze(values[2]) == Freeze(values[0]);
    ThreeValues(map[], values, f, tokens, rules);
  }

  lemma OneStored(scalars: Scalars)
    ensures TableFrom(map[], [JList([])], Serializer(scalars)) == map[EmptyKey() := "[]"]
  {
    hide Freeze, Serializer, EmptyKey;
    EmptyKeys(scalars);
    assert [JList([])][..0] == [];
    assert TableFrom(map[], [], Serializer(scalars)) == map[];
  }

  /** A cache that has scanned an empty argument list before: a later scan with arguments and without an
      environment flags what is forbidden in `[]`, although no value of its own may have it. */
  lemma EarlierScanAlarms(
    metadata: Json, arguments: Json, scalars: Scalars, tokens: seq<string>, rules: ScanRules)
    requires metadata.JObj? && metadata.fields.Keys != {} && arguments.JList? && arguments.items != []
    requires Freeze(metadata) != Freeze(arguments)
    ensures var f, values := Serializer(scalars), [metadata, arguments, JObj(map[])];
      var stored := TableFrom(map[], [JList([])], f);
      CachedClean(stored, values, f, tokens, rules) <==>
        && !LeaksAs(f(metadata), tokens, rules) && !LeaksAs(f(arguments), tokens, rules)
        && !LeaksAs("[]", tokens, rules)
  {
    hide Freeze, LeaksAs, Serializer, TableFrom, EmptyKey, CachedClean;
    EmptyKeys(scalars);
    NonEmptyKey(metadata);
    NonEmptyKey(arguments);
    OneStored(scalars);
    var f, values := Serializer(scalars), [metadata, arguments, JObj(map[])];
    var stored := TableFrom(map[], [JList([])], f);
    CachedScanExact(stored, values, f, tokens, rules);
    assert FirstOfItsKey(values, 0) && FirstOfItsKey(values, 1);
    ThreeValues(stored, values, f, tokens, rules);
  }

  // ----- which tokens are missed -----

  lemma BracesHold(w: string)
    ensures Contains("{}", w) <==> w in {"", "{", "}", "{}"}
  {
    var s := "{}";
    assert s[1..] == "}" && "}"[1..] == "";
    assert Contains("}", w) <==> StartsWith("}", w) || Contains("", w);
    assert Contains(s, w) <==> StartsWith(s, w) || Contains("}", w);
    assert Contains("", w) <==> StartsWith("", w);
    assert StartsWith(s, w) <==> w == s[..0] || w == s[..1] || w == s[..2];
    assert StartsWith("}", w) <==> w == "}"[..0] || w == "}"[..1];
    assert s[..0] == "" && s[..1] == "{" && s[..2] == "{}" && "}"[..0] == "" && "}"[..1] == "}";
  }

  lemma {:induction false} EndsWithBrace(s: string)
    requires s != "" && s[|s| - 1] == '}'
    ensures Contains(s, "}")
    decreases |s|
  {
    if |s| > 1 { EndsWithBrace(s[1..]); } else { assert s == "}"; }
  }

  lemma BracesInside(s: string, w: string)
    requires s != "" && s[0] == '{' && s[|s| - 1] == '}' && w in {"", "{", "}"}
    ensures Contains(s, w)
  {
    EndsWithBrace(s);
    assert s[..1] == "{" && s[..0] == "";
  }

  /** Metadata has braces of its own, so what the scan of a build misses is only ever a token that folds to
      `{}`, for folding that leaves brackets alone and markers without them. */
  lemma OnlyBracesAreMissed(metadata: Json, scalars: Scalars, tokens: seq<string>, rules: ScanRules)
    requires metadata.JObj? && metadata.fields.Keys != {}
    requires rules.fold("{}") == "{}" && !rules.marker("{}")
    requires var text := rules.fold(CanonicalJson(metadata, scalars));
      text != "" && text[0] == '{' && text[|text| - 1] == '}'
    ensures var f, values := Serializer(scalars), [metadata, JList([]), JObj(map[])];
      CachedClean(map[], values, f, tokens, rules) && !PlainClean(values, f, tokens, rules) <==>
        && !LeaksAs(f(metadata), tokens, rules) && !LeaksAs("[]", tokens, rules)
        && exists t :: t in tokens && t != "" && rules.fold(t) == "{}"
  {
    hide *;
    EmptyArgumentsScan(metadata, scalars, tokens, rules);
    SerializerIs(metadata, scalars);
    var text := rules.fold(CanonicalJson(metadata, scalars));
    forall t | t in tokens && t != ""
      ensures Contains("{}", rules.fold(t)) ==> rules.fold(t) == "{}" || Contains(text, rules.fold(t))
      ensures rules.fold(t) == "{}" ==> Contains("{}", rules.fold(t))
    {
      BracesHold(rules.fold(t));
      if rules.fold(t) in {"", "{", "}"} { BracesInside(text, rules.fold(t)); }
    }
    LeaksIs(CanonicalJson(metadata, scalars), tokens, rules);
    LeaksIs("{}", tokens, rules);
  }

  lemma SerializerIs(v: Json, scalars: Scalars)
    ensures Serializer(scalars)(v) == CanonicalJson(v, scalars)
  {
  }

  lemma LeaksIs(text: string, tokens: seq<string>, rules: ScanRules)
    ensures LeaksAs(text, tokens, rules) <==>
      rules.marker(text) || exists t :: t in tokens && t != "" && Contains(rules.fold(text), rules.fold(t))
  {
    hide Contains;
  }
}
