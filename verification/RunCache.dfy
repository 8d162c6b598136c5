/** The run cache: tables keyed by frozen values, and when they agree with computing afresh. */
module RunCache {
  import opened Options
  import opened Ordering
  import Corpus

  // ----- values and their frozen form -----

  datatype Json =
    | JNull | JBool(flag: bool) | JInt(n: int) | JStr(s: string) | JBytes(bytes: seq<int>) | JList(items: seq<Json>)
    | JObj(fields: map<string, Json>)

  /** Hashable forms. Python's `True` equals `1`, so booleans and numbers share a constructor. */
  datatype Frozen = FNull | FNumber(n: int) | FStr(s: string) | FBytes(bytes: seq<int>) | FTuple(items: seq<Frozen>)

  lemma LeastExists(ids: set<string>)
    requires ids != {}
    ensures exists id :: id in ids && forall x :: x in ids ==> StrLe(id, x)
  {
    var a :| a in ids;
    var rest := ids - {a};
    StrLeOrder();
    if rest == {} {
      assert ids == {a};
      assert StrLe(a, a);
    } else {
      LeastExists(rest);
      var b :| b in rest && forall x :: x in rest ==> StrLe(b, x);
      var least := if StrLe(a, b) then a else b;
      assert StrLe(least, a) && StrLe(least, b);
      forall x | x in ids ensures StrLe(least, x) {
        if x != a { assert StrLe(b, x); }
      }
    }
  }

  function Least(ids: set<string>): (id: string)
    requires ids != {}
    ensures id in ids && forall x :: x in ids ==> StrLe(id, x)
  {
    LeastExists(ids);
    StrLeOrder();
    var id :| id in ids && forall x :: x in ids ==> StrLe(id, x);
    id
  }

  /** The keys in order. */
  function Keys(ids: set<string>): (r: seq<string>)
    ensures forall id :: id in r <==> id in ids
    ensures |r| == |ids|
  {
    if ids == {} then []
    else
      var id := Least(ids);
      [id] + Keys(ids - {id})
  }

  function Freeze(v: Json): (f: Frozen)
    decreases v, 1, 0
  {
    match v
    case JNull => FNull
    case JBool(flag) => FNumber(if flag then 1 else 0)
    case JInt(n) => FNumber(n)
    case JStr(s) => FStr(s)
    case JBytes(bytes) => FBytes(bytes)
    case JList(items) => FTuple(seq(|items|, i requires 0 <= i < |items| => Freeze(items[i])))
    case JObj(fields) => FTuple(FreezeEntries(v, Keys(fields.Keys)))
  }

  /** The pairs of an object, by key. */
  function FreezeEntries(v: Json, keys: seq<string>): (r: seq<Frozen>)
    requires v.JObj? && forall k :: k in keys ==> k in v.fields
    ensures |r| == |keys|
    decreases v, 0, |keys|
  {
    if keys == [] then []
    else [FTuple([FStr(keys[0]), Freeze(v.fields[keys[0]])])] + FreezeEntries(v, keys[1..])
  }

  // ----- schemas -----

  datatype Schema =
    | SStr | SOptional | SList(item: Schema) | SMap(value: Schema) | SRecord(fields: map<string, Schema>)

  /** A string, a string or null, a list, a dictionary with any keys, or a record with exactly these keys. */
  ghost predicate HasType(v: Json, s: Schema)
    decreases s
  {
    match s
    case SStr => v.JStr?
    case SOptional => v.JStr? || v.JNull?
    case SList(item) => v.JList? && forall i :: 0 <= i < |v.items| ==> HasType(v.items[i], item)
    case SMap(value) => v.JObj? && forall k :: k in v.fields ==> HasType(v.fields[k], value)
    case SRecord(fields) =>
      v.JObj? && v.fields.Keys == fields.Keys && forall k :: k in fields ==> HasType(v.fields[k], fields[k])
  }

  lemma {:induction false} EntryAt(v: Json, keys: seq<string>, i: nat)
    requires v.JObj? && (forall k :: k in keys ==> k in v.fields) && i < |keys|
    ensures keys[i] in keys && keys[i] in v.fields
    ensures FreezeEntries(v, keys)[i] == FTuple([FStr(keys[i]), Freeze(v.fields[keys[i]])])
    decreases |keys|
  {
    hide Freeze;
    if i > 0 {
      assert forall k :: k in keys[1..] ==> k in keys;
      EntryAt(v, keys[1..], i - 1);
    }
  }

  lemma FreezeObject(a: Json)
    requires a.JObj?
    ensures Freeze(a) == FTuple(FreezeEntries(a, Keys(a.fields.Keys)))
  {
  }

  /** Objects that freeze alike have the same keys, and their values freeze alike. */
  lemma SameEntries(a: Json, b: Json)
    requires a.JObj? && b.JObj? && Freeze(a) == Freeze(b)
    ensures a.fields.Keys == b.fields.Keys
    ensures forall k :: k in a.fields && k in b.fields ==> Freeze(a.fields[k]) == Freeze(b.fields[k])
  {
    hide Freeze, FreezeEntries, Keys;
    var x, y := Keys(a.fields.Keys), Keys(b.fields.Keys);
    FreezeObject(a);
    FreezeObject(b);
    forall i | 0 <= i < |x| ensures x[i] == y[i] && Freeze(a.fields[x[i]]) == Freeze(b.fields[x[i]]) {
      EntryAt(a, x, i);
      EntryAt(b, y, i);
    }
    assert x == y;
    assert forall k :: k in a.fields <==> k in x;
    assert forall k :: k in b.fields <==> k in y;
    forall k | k in a.fields && k in b.fields ensures Freeze(a.fields[k]) == Freeze(b.fields[k]) {
      var i :| 0 <= i < |x| && x[i] == k;
    }
  }

  lemma SameItems(a: Json, b: Json)
    requires a.JList? && b.JList? && Freeze(a) == Freeze(b)
    ensures |a.items| == |b.items| && forall i :: 0 <= i < |a.items| ==> Freeze(a.items[i]) == Freeze(b.items[i])
  {
    var x, y := Freeze(a).items, Freeze(b).items;
    assert |x| == |a.items| && |y| == |b.items|;
    forall i | 0 <= i < |a.items| ensures Freeze(a.items[i]) == Freeze(b.items[i]) {
      assert x[i] == Freeze(a.items[i]) && y[i] == Freeze(b.items[i]);
    }
  }

  lemma FreezeScalar(v: Json)
    ensures Freeze(v).FTuple? <==> v.JList? || v.JObj?
    ensures forall s :: Freeze(v) == FStr(s) <==> v == JStr(s)
    ensures forall b :: Freeze(v) == FBytes(b) <==> v == JBytes(b)
    ensures Freeze(v).FNull? <==> v.JNull?
  {
  }

  lemma SameValues(a: Json, b: Json)
    requires a.JObj? && b.JObj? && a.fields.Keys == b.fields.Keys
    requires forall k :: k in a.fields && k in b.fields ==> a.fields[k] == b.fields[k]
    ensures a == b
  {
    assert forall k :: k in a.fields <==> k in b.fields.Keys;
    assert a.fields == b.fields;
  }

  /** On values of one schema freezing loses nothing. */
  lemma {:induction false} FreezeInjective(a: Json, b: Json, s: Schema)
    requires HasType(a, s) && HasType(b, s) && Freeze(a) == Freeze(b)
    ensures a == b
    decreases s
  {
    hide Freeze;
    match s {
      case SStr =>
        FreezeScalar(a);
        FreezeScalar(b);
      case SOptional =>
        FreezeScalar(a);
        FreezeScalar(b);
      case SList(item) =>
        SameItems(a, b);
        forall i | 0 <= i < |a.items|
          ensures a.items[i] == b.items[i] { FreezeInjective(a.items[i], b.items[i], item); }
        assert a.items == b.items;
      case SMap(value) =>
        SameEntries(a, b);
        forall k | k in a.fields && k in b.fields ensures a.fields[k] == b.fields[k] {
          FreezeInjective(a.fields[k], b.fields[k], value);
        }
        SameValues(a, b);
      case SRecord(fields) =>
        SameEntries(a, b);
        forall k | k in a.fields && k in b.fields ensures a.fields[k] == b.fields[k] {
          assert k in a.fields.Keys;
          FreezeInjective(a.fields[k], b.fields[k], fields[k]);
        }
        SameValues(a, b);
    }
  }

  // ----- documents -----

  function Strings(xs: seq<string>): (v: Json) { JList(seq(|xs|, i requires 0 <= i < |xs| => JStr(xs[i]))) }

  function Dictionary(m: map<string, string>): (v: Json) { JObj(map k | k in m :: JStr(m[k])) }

  function Optional(x: Option<string>): (v: Json) { if x.Some? then JStr(x.value) else JNull }

  /** `document.model_dump(mode="json")`. */
  function ToJson(d: Corpus.Document): (v: Json) {
    JObj(map[
      "source_id" := JStr(d.sourceId), "source_kind" := JStr(d.sourceKind), "canonical_url" := JStr(d.canonicalUrl),
      "title" := JStr(d.title), "text" := JStr(d.text), "content_hash" := JStr(d.contentHash),
      "created_at" := Optional(d.createdAt), "updated_at" := Optional(d.updatedAt),
      "container" := Optional(d.container),
      "authors" := Strings(d.authors), "related_source_ids" := Strings(d.relatedSourceIds),
      "source_references" := Strings(d.sourceReferences), "crawl_provenance" := Dictionary(d.crawlProvenance),
      "warnings" := Strings(d.warnings), "metadata" := Dictionary(d.metadata)])
  }

  ghost predicate Stands(d: Corpus.Document, name: string, v: Json) {
    ToJson(d).JObj? && name in ToJson(d).fields && ToJson(d).fields[name] == v
  }

  /** Each field of a document stands under its own name. */
  lemma OriginNamed(d: Corpus.Document)
    ensures Stands(d, "source_id", JStr(d.sourceId)) && Stands(d, "source_kind", JStr(d.sourceKind))
    ensures Stands(d, "canonical_url", JStr(d.canonicalUrl))
  {
    hide Strings, Dictionary, Optional;
  }

  lemma TextsNamed(d: Corpus.Document)
    ensures Stands(d, "title", JStr(d.title)) && Stands(d, "text", JStr(d.text))
    ensures Stands(d, "content_hash", JStr(d.contentHash))
  {
    hide Strings, Dictionary, Optional;
  }

  lemma OthersNamed(d: Corpus.Document)
    ensures Stands(d, "created_at", Optional(d.createdAt)) && Stands(d, "updated_at", Optional(d.updatedAt))
    ensures Stands(d, "container", Optional(d.container)) && Stands(d, "authors", Strings(d.authors))
  {
    hide Strings, Dictionary, Optional;
  }

  lemma ListsNamed(d: Corpus.Document)
    ensures Stands(d, "related_source_ids", Strings(d.relatedSourceIds))
    ensures Stands(d, "source_references", Strings(d.sourceReferences)) && Stands(d, "warnings", Strings(d.warnings))
    ensures Stands(d, "crawl_provenance", Dictionary(d.crawlProvenance))
    ensures Stands(d, "metadata", Dictionary(d.metadata))
  {
    hide Strings, Dictionary, Optional;
  }

  function DocumentSchema(): (s: Schema) {
    SRecord(map[
      "source_id" := SStr, "source_kind" := SStr, "canonical_url" := SStr, "title" := SStr, "text" := SStr,
      "content_hash" := SStr, "created_at" := SOptional, "updated_at" := SOptional, "container" := SOptional,
      "authors" := SList(SStr), "related_source_ids" := SList(SStr), "source_references" := SList(SStr),
      "crawl_provenance" := SMap(SStr), "warnings" := SList(SStr), "metadata" := SMap(SStr)])
  }

  lemma PartsTyped(xs: seq<string>, m: map<string, string>, x: Option<string>, t: string)
    ensures HasType(Strings(xs), SList(SStr)) && HasType(Dictionary(m), SMap(SStr)) && HasType(Optional(x), SOptional)
    ensures HasType(JStr(t), SStr)
  {
  }

  lemma SameNames(d: Corpus.Document)
    ensures ToJson(d).fields.Keys == DocumentSchema().fields.Keys
  {
    hide Strings, Dictionary, Optional;
  }

  lemma FieldTyped(d: Corpus.Document, k: string)
    requires k in DocumentSchema().fields && k in ToJson(d).fields
    ensures HasType(ToJson(d).fields[k], DocumentSchema().fields[k])
  {
    hide Strings, Dictionary, Optional, HasType;
    forall xs, m, x, t
      ensures HasType(Strings(xs), SList(SStr)) && HasType(Dictionary(m), SMap(SStr)) && HasType(Optional(x), SOptional)
              && HasType(JStr(t), SStr)
    {
      PartsTyped(xs, m, x, t);
    }
  }

  /** Every document has the document schema. */
  lemma DocumentTyped(d: Corpus.Document)
    ensures HasType(ToJson(d), DocumentSchema())
  {
    hide ToJson, DocumentSchema;
    SameNames(d);
    DocumentShapes(d);
    forall k | k in DocumentSchema().fields ensures HasType(ToJson(d).fields[k], DocumentSchema().fields[k]) {
      assert k in DocumentSchema().fields.Keys;
      FieldTyped(d, k);
    }
  }

  lemma DocumentShapes(d: Corpus.Document)
    ensures ToJson(d).JObj? && DocumentSchema().SRecord?
  {
  }

  lemma PartsInjective(xs: seq<string>, ys: seq<string>, m: map<string, string>, n: map<string, string>,
    x: Option<string>, y: Option<string>)
    ensures Strings(xs) == Strings(ys) ==> xs == ys
    ensures Dictionary(m) == Dictionary(n) ==> m == n
    ensures Optional(x) == Optional(y) ==> x == y
  {
    if Strings(xs) == Strings(ys) {
      assert |xs| == |Strings(xs).items| == |ys|;
      forall i | 0 <= i < |xs|
        ensures xs[i] == ys[i] { assert Strings(xs).items[i] == JStr(xs[i]) && Strings(ys).items[i] == JStr(ys[i]); }
    }
    if Dictionary(m) == Dictionary(n) {
      var f, g := Dictionary(m).fields, Dictionary(n).fields;
      forall k ensures k in m <==> k in n { assert k in f <==> k in g; }
      forall k | k in m ensures m[k] == n[k] { assert f[k] == JStr(m[k]) && g[k] == JStr(n[k]); }
    }
  }

  lemma SameOrigin(a: Corpus.Document, b: Corpus.Document)
    requires ToJson(a) == ToJson(b)
    ensures a.sourceId == b.sourceId && a.sourceKind == b.sourceKind && a.canonicalUrl == b.canonicalUrl
  {
    hide Strings, Dictionary, Optional;
    var x, y := ToJson(a).fields, ToJson(b).fields;
    assert x["source_id"] == y["source_id"] && x["source_kind"] == y["source_kind"];
    assert x["canonical_url"] == y["canonical_url"];
  }

  lemma SameContent(a: Corpus.Document, b: Corpus.Document)
    requires ToJson(a) == ToJson(b)
    ensures a.title == b.title && a.text == b.text && a.contentHash == b.contentHash
  {
    hide Strings, Dictionary, Optional;
    var x, y := ToJson(a).fields, ToJson(b).fields;
    assert x["title"] == y["title"] && x["text"] == y["text"] && x["content_hash"] == y["content_hash"];
  }

  lemma SameDates(a: Corpus.Document, b: Corpus.Document)
    requires ToJson(a) == ToJson(b)
    ensures a.createdAt == b.createdAt && a.updatedAt == b.updatedAt && a.container == b.container
  {
    hide Strings, Dictionary;
    var x, y := ToJson(a).fields, ToJson(b).fields;
    assert x["created_at"] == y["created_at"] && x["updated_at"] == y["updated_at"] && x["container"] == y["container"];
  }

  lemma SameLists(a: Corpus.Document, b: Corpus.Document)
    requires ToJson(a) == ToJson(b)
    ensures Strings(a.authors) == Strings(b.authors) && Strings(a.relatedSourceIds) == Strings(b.relatedSourceIds)
    ensures Strings(a.sourceReferences) == Strings(b.sourceReferences) && Strings(a.warnings) == Strings(b.warnings)
    ensures Dictionary(a.crawlProvenance) == Dictionary(b.crawlProvenance)
      && Dictionary(a.metadata) == Dictionary(b.metadata)
  {
    hide Strings, Dictionary, Optional;
    var x, y := ToJson(a).fields, ToJson(b).fields;
    assert x["authors"] == y["authors"] && x["related_source_ids"] == y["related_source_ids"];
    assert x["source_references"] == y["source_references"] && x["warnings"] == y["warnings"];
    assert x["crawl_provenance"] == y["crawl_provenance"] && x["metadata"] == y["metadata"];
  }

  /** The dump shows every field. */
  lemma ToJsonInjective(a: Corpus.Document, b: Corpus.Document)
    requires ToJson(a) == ToJson(b)
    ensures a == b
  {
    hide *;
    SameOrigin(a, b);
    SameContent(a, b);
    SameDates(a, b);
    SameLists(a, b);
    PartsInjective(a.authors, b.authors, a.metadata, b.metadata, None, None);
    PartsInjective(a.relatedSourceIds, b.relatedSourceIds, a.crawlProvenance, b.crawlProvenance, None, None);
    PartsInjective(a.sourceReferences, b.sourceReferences, map[], map[], None, None);
    PartsInjective(a.warnings, b.warnings, map[], map[], None, None);
  }

  /** Documents that freeze alike are the same document. */
  lemma FrozenDocuments(a: Corpus.Document, b: Corpus.Document)
    requires Freeze(ToJson(a)) == Freeze(ToJson(b))
    ensures a == b
  {
    hide *;
    DocumentTyped(a);
    DocumentTyped(b);
    FreezeInjective(ToJson(a), ToJson(b), DocumentSchema());
    ToJsonInjective(a, b);
  }

  function FreezeAll(docs: seq<Corpus.Document>): (key: seq<Frozen>)
    ensures |key| == |docs| && forall i :: 0 <= i < |docs| ==> key[i] == Freeze(ToJson(docs[i]))
  {
    seq(|docs|, i requires 0 <= i < |docs| => Freeze(ToJson(docs[i])))
  }

  lemma FrozenLists(a: seq<Corpus.Document>, b: seq<Corpus.Document>)
    requires FreezeAll(a) == FreezeAll(b)
    ensures a == b
  {
    hide Freeze, ToJson;
    forall i | 0 <= i < |a| ensures |a| == |b| && a[i] == b[i] {
      assert FreezeAll(a)[i] == FreezeAll(b)[i];
      FrozenDocuments(a[i], b[i]);
    }
    assert |FreezeAll(a)| == |FreezeAll(b)|;
  }

  // ----- canonical JSON -----

  /** How numbers, strings and bytes are written; what JSON has no form for goes through `str`. */
  datatype Scalars = Scalars(digits: int -> string, quote: string -> string, shown: seq<int> -> string)

  /** `json.dumps(..., sort_keys=True, separators=(",", ":"))`. */
  function CanonicalJson(v: Json, scalars: Scalars): (s: string)
    decreases v, 1, 0
  {
    match v
    case JNull => "null"
    case JBool(flag) => if flag then "true" else "false"
    case JInt(n) => scalars.digits(n)
    case JStr(s) => scalars.quote(s)
    case JBytes(bytes) => scalars.quote(scalars.shown(bytes))
    case JList(items) =>
      "[" + Corpus.JoinRefs(seq(|items|, i requires 0 <= i < |items| => CanonicalJson(items[i], scalars))) + "]"
    case JObj(fields) => "{" + Corpus.JoinRefs(Members(v, Keys(fields.Keys), scalars)) + "}"
  }

  function Members(v: Json, keys: seq<string>, scalars: Scalars): (r: seq<string>)
    requires v.JObj? && forall k :: k in keys ==> k in v.fields
    decreases v, 0, |keys|
  {
    if keys == [] then []
    else [scalars.quote(keys[0]) + ":" + CanonicalJson(v.fields[keys[0]], scalars)] + Members(v, keys[1..], scalars)
  }

  /** Outside one schema freezing does collide: an empty object with an empty list, although their
      canonical JSON differs. */
  lemma EmptyValuesCollide(scalars: Scalars)
    ensures Freeze(JObj(map[])) == Freeze(JList([]))
    ensures CanonicalJson(JObj(map[]), scalars) == "{}" && CanonicalJson(JList([]), scalars) == "[]"
  {
    var empty: map<string, Json> := map[];
    assert Keys(empty.Keys) == [];
  }

  lemma TwoKeys()
    ensures Keys({"a", "b"}) == ["a", "b"]
  {
    assert StrLe("a", "b") && !StrLe("b", "a");
    assert Least({"a", "b"}) == "a" by { assert Least({"a", "b"}) in {"a", "b"}; }
    assert {"a", "b"} - {"a"} == {"b"};
    assert Least({"b"}) == "b" && {"b"} - {"b"} == {};
    assert Keys({"b"}) == ["b"] + Keys({}) == ["b"];
  }

  lemma ListShown(items: seq<Json>, scalars: Scalars)
    requires |items| == 3
    ensures CanonicalJson(JList(items), scalars) ==
      "[" + (CanonicalJson(items[0], scalars) + "," + (CanonicalJson(items[1], scalars) + ","
        + CanonicalJson(items[2], scalars))) + "]"
  {
    var v := JList(items);
    var parts := seq(|items|, i requires 0 <= i < |items| => CanonicalJson(items[i], scalars));
    assert CanonicalJson(v, scalars) == "[" + Corpus.JoinRefs(parts) + "]";
    hide CanonicalJson;
    assert parts ==
      [CanonicalJson(items[0], scalars), CanonicalJson(items[1], scalars), CanonicalJson(items[2], scalars)];
    assert parts[1..][1..] == [parts[2]];
    Corpus.JoinFirst(parts);
    Corpus.JoinFirst(parts[1..]);
    Corpus.JoinFirst([parts[2]]);
  }

  lemma NextMember(v: Json, keys: seq<string>, scalars: Scalars)
    requires keys != [] && v.JObj? && forall k :: k in keys ==> k in v.fields
    ensures Members(v, keys, scalars) ==
      [scalars.quote(keys[0]) + ":" + CanonicalJson(v.fields[keys[0]], scalars)] + Members(v, keys[1..], scalars)
  {
  }

  lemma ObjectShown(fields: map<string, Json>, scalars: Scalars)
    requires fields.Keys == {"a", "b"}
    ensures CanonicalJson(JObj(fields), scalars) ==
      "{" + (scalars.quote("a") + ":" + CanonicalJson(fields["a"], scalars) + ","
        + (scalars.quote("b") + ":" + CanonicalJson(fields["b"], scalars))) + "}"
  {
    TwoKeys();
    var v := JObj(fields);
    hide Keys;
    var rest := Members(v, ["b"], scalars);
    assert ["a", "b"][1..] == ["b"] && ["b"][1..] == [];
    assert CanonicalJson(v, scalars) == "{" + Corpus.JoinRefs(Members(v, ["a", "b"], scalars)) + "}";
    var parts := Members(v, ["a", "b"], scalars);
    NextMember(v, ["a", "b"], scalars);
    NextMember(v, ["b"], scalars);
    hide CanonicalJson, Members;
    Corpus.JoinFirst(parts);
    Corpus.JoinFirst(rest);
    assert parts[1..] == rest;
  }

  /** Keys come in order, without blanks between anything. */
  lemma CompactAndSorted(scalars: Scalars)
    ensures var v := JObj(map["b" := JInt(1), "a" := JList([JNull, JBool(true), JBool(false)])]);
      CanonicalJson(v, scalars) ==
        "{" + (scalars.quote("a") + ":" + ("[" + ("null" + "," + ("true" + "," + "false")) + "]") + ","
          + (scalars.quote("b") + ":" + scalars.digits(1))) + "}"
  {
    var list := JList([JNull, JBool(true), JBool(false)]);
    var fields := map["b" := JInt(1), "a" := list];
    ListShown([JNull, JBool(true), JBool(false)], scalars);
    ObjectShown(fields, scalars);
  }

  /** So does `true` with 1. */
  lemma TrueCollidesWithOne(scalars: Scalars)
    requires scalars.digits(1) == "1"
    ensures Freeze(JBool(true)) == Freeze(JInt(1))
    ensures CanonicalJson(JBool(true), scalars) != CanonicalJson(JInt(1), scalars)
  {
    assert CanonicalJson(JBool(true), scalars)[0] == 't';
    assert CanonicalJson(JInt(1), scalars)[0] == '1';
  }

  // ----- tables -----

  /** What a lookup answers: the stored value, or the one just computed. */
  function Lookup<K(==), V>(table: map<K, V>, key: K, computed: V): (v: V) {
    if key in table then table[key] else computed
  }

  function Remember<K(==), V>(table: map<K, V>, key: K, computed: V): (t: map<K, V>) {
    if key in table then table else table[key := computed]
  }

  /** The table after some lookups, starting empty. */
  function TableAfter<A, K(==), V>(lookups: seq<A>, key: A -> K, f: A -> V): (t: map<K, V>) {
    if lookups == [] then map[]
    else
      var last := lookups[|lookups| - 1];
      Remember(TableAfter(lookups[..|lookups| - 1], key, f), key(last), f(last))
  }

  function AnswerTo<A, K(==), V>(lookups: seq<A>, key: A -> K, f: A -> V, i: nat): (v: V)
    requires i < |lookups|
  {
    Lookup(TableAfter(lookups[..i], key, f), key(lookups[i]), f(lookups[i]))
  }

  lemma TableStep<A, K, V>(lookups: seq<A>, key: A -> K, f: A -> V, j: nat)
    requires j < |lookups|
    ensures TableAfter(lookups[..j + 1], key, f) ==
      Remember(TableAfter(lookups[..j], key, f), key(lookups[j]), f(lookups[j]))
  {
    assert lookups[..j + 1][..j] == lookups[..j];
  }

  /** Once a key has been looked up, every later answer for it is the one given then. */
  lemma {:induction false} AnswersStay<A, K, V>(lookups: seq<A>, key: A -> K, f: A -> V, i: nat, j: nat)
    requires i < j <= |lookups|
    ensures key(lookups[i]) in TableAfter(lookups[..j], key, f)
    ensures TableAfter(lookups[..j], key, f)[key(lookups[i])] == AnswerTo(lookups, key, f, i)
    decreases j
  {
    TableStep(lookups, key, f, j - 1);
    hide TableAfter;
    if i < j - 1 { AnswersStay(lookups, key, f, i, j - 1); }
  }

  /** Every stored value was computed for some earlier lookup with that key. */
  lemma {:induction false} StoredFromBefore<A, K, V>(lookups: seq<A>, key: A -> K, f: A -> V, j: nat, k: K)
    returns (i: nat)
    requires j <= |lookups| && k in TableAfter(lookups[..j], key, f)
    ensures i < j && key(lookups[i]) == k && TableAfter(lookups[..j], key, f)[k] == f(lookups[i])
    decreases j
  {
    TableNothing(lookups, key, f);
    TableStep(lookups, key, f, j - 1);
    hide TableAfter;
    if k in TableAfter(lookups[..j - 1], key, f) {
      i := StoredFromBefore(lookups, key, f, j - 1, k);
    } else {
      i := j - 1;
    }
  }

  lemma TableNothing<A, K, V>(lookups: seq<A>, key: A -> K, f: A -> V)
    ensures TableAfter(lookups[..0], key, f) == map[]
  {
  }

  /** All answers of a run equal the uncached function exactly when lookups that share a key agree. */
  lemma MemoExact<A, K, V>(lookups: seq<A>, key: A -> K, f: A -> V)
    ensures (forall i: nat :: i < |lookups| ==> AnswerTo(lookups, key, f, i) == f(lookups[i])) <==>
      forall i: nat, j: nat :: i < j < |lookups| && key(lookups[i]) == key(lookups[j]) ==>
        f(lookups[i]) == f(lookups[j])
  {
    hide TableAfter;
    if forall i: nat :: i < |lookups| ==> AnswerTo(lookups, key, f, i) == f(lookups[i]) {
      forall i: nat, j: nat | i < j < |lookups| && key(lookups[i]) == key(lookups[j])
        ensures f(lookups[i]) == f(lookups[j]) {
        AnswersStay(lookups, key, f, i, j);
        assert AnswerTo(lookups, key, f, i) == f(lookups[i]) && AnswerTo(lookups, key, f, j) == f(lookups[j]);
      }
    }
    if forall i: nat, j: nat :: i < j < |lookups| && key(lookups[i]) == key(lookups[j]) ==>
      f(lookups[i]) == f(lookups[j]) {
      forall j: nat | j < |lookups| ensures AnswerTo(lookups, key, f, j) == f(lookups[j]) {
        if key(lookups[j]) in TableAfter(lookups[..j], key, f) {
          var i := StoredFromBefore(lookups, key, f, j, key(lookups[j]));
        }
      }
    }
  }

  // ----- the cache -----

  /** Some bytes are hashed under this key, which is a frozen form like any other. */
  function BytesKey(bytes: seq<int>): (key: Frozen) { FTuple([FStr("bytes"), FBytes(bytes)]) }

  /** The one value that freezes to it. */
  function PairOf(bytes: seq<int>): (v: Json) { JList([JStr("bytes"), JBytes(bytes)]) }

  lemma PairFrozen(v: Json, bytes: seq<int>)
    ensures Freeze(v) == BytesKey(bytes) <==> v == PairOf(bytes)
  {
    hide Freeze;
    if v.JList? {
      FreezeList(v);
      if Freeze(v) == BytesKey(bytes) {
        var items := Freeze(v).items;
        assert |v.items| == 2 && Freeze(v.items[0]) == FStr("bytes") && Freeze(v.items[1]) == FBytes(bytes);
        FreezeScalar(v.items[0]);
        FreezeScalar(v.items[1]);
        assert v.items == [JStr("bytes"), JBytes(bytes)];
      }
      if v == PairOf(bytes) {
        FreezeScalar(v.items[0]);
        FreezeScalar(v.items[1]);
        assert Freeze(v).items == [FStr("bytes"), FBytes(bytes)];
      }
    } else if v.JObj? {
      FreezeObject(v);
      if Freeze(v) == BytesKey(bytes) { EntryAt(v, Keys(v.fields.Keys), 0); }
    } else {
      FreezeScalar(v);
    }
  }

  lemma FreezeList(v: Json)
    requires v.JList?
    ensures Freeze(v).FTuple? && |Freeze(v).items| == |v.items|
    ensures forall i :: 0 <= i < |v.items| ==> Freeze(v).items[i] == Freeze(v.items[i])
  {
  }

  /** No value of a schema is such a pair. */
  lemma TypedIsNoPair(v: Json, s: Schema, bytes: seq<int>)
    requires HasType(v, s)
    ensures v != PairOf(bytes)
  {
    if v.JList? && s.SList? && |v.items| == 2 {
      assert HasType(v.items[0], s.item) && HasType(v.items[1], s.item);
    }
  }

  function IndexOf(docs: seq<Corpus.Document>): (index: map<string, Corpus.Document>) {
    if docs == [] then map[] else IndexOf(docs[..|docs| - 1])[docs[|docs| - 1].sourceId := docs[|docs| - 1]]
  }

  /** Of several documents with one id, the index has the last. */
  lemma {:induction false} IndexTells(docs: seq<Corpus.Document>, i: nat)
    requires i < |docs| && forall j :: i < j < |docs| ==> docs[j].sourceId != docs[i].sourceId
    ensures docs[i].sourceId in IndexOf(docs) && IndexOf(docs)[docs[i].sourceId] == docs[i]
    decreases |docs|
  {
    if i < |docs| - 1 { IndexTells(docs[..|docs| - 1], i); }
  }

  lemma {:induction false} IndexHas(docs: seq<Corpus.Document>, id: string)
    ensures id in IndexOf(docs) <==> exists i :: 0 <= i < |docs| && docs[i].sourceId == id
  {
    if docs != [] {
      var n := |docs| - 1;
      IndexHas(docs[..n], id);
      assert forall i :: 0 <= i < n ==> docs[..n][i] == docs[i];
    }
  }

  function IdsOf(docs: seq<Corpus.Document>): (ids: seq<string>)
    ensures |ids| == |docs| && forall i :: 0 <= i < |docs| ==> ids[i] == docs[i].sourceId
  {
    seq(|docs|, i requires 0 <= i < |docs| => docs[i].sourceId)
  }

  /** On one schema's values the table holds nothing but what `f` gives. */
  ghost predicate Agrees(table: map<Frozen, string>, s: Schema, f: Json -> string) {
    forall v :: HasType(v, s) && Freeze(v) in table ==> table[Freeze(v)] == f(v)
  }

  lemma LookupAgrees(table: map<Frozen, string>, s: Schema, f: Json -> string, v: Json)
    requires Agrees(table, s, f) && HasType(v, s)
    ensures Lookup(table, Freeze(v), f(v)) == f(v) && Agrees(Remember(table, Freeze(v), f(v)), s, f)
  {
    hide HasType, Freeze;
    var t := Remember(table, Freeze(v), f(v));
    forall w | HasType(w, s) && Freeze(w) in t ensures t[Freeze(w)] == f(w) {
      if Freeze(w) == Freeze(v) { FreezeInjective(w, v, s); }
    }
  }

  ghost predicate CorporaRight(normalized: map<seq<Frozen>, seq<Corpus.Document>>, rules: Corpus.Rules) {
    forall docs :: FreezeAll(docs) in normalized ==>
      Corpus.Normalize(docs, rules) == Corpus.Ok(normalized[FreezeAll(docs)])
  }

  lemma CorpusAdded(normalized: map<seq<Frozen>, seq<Corpus.Document>>, rules: Corpus.Rules,
    items: seq<Corpus.Document>)
    requires CorporaRight(normalized, rules) && Corpus.Normalize(items, rules).Ok?
    ensures CorporaRight(normalized[FreezeAll(items) := Corpus.Normalize(items, rules).documents], rules)
  {
    hide FreezeAll, Corpus.Normalize;
    var t := normalized[FreezeAll(items) := Corpus.Normalize(items, rules).documents];
    forall docs | FreezeAll(docs) in t ensures Corpus.Normalize(docs, rules) == Corpus.Ok(t[FreezeAll(docs)]) {
      if FreezeAll(docs) == FreezeAll(items) { FrozenLists(docs, items); }
    }
  }

  /** What is stored for bytes is their digest. */
  ghost predicate BytesRight(hashes: map<Frozen, string>, digestBytes: seq<int> -> string) {
    forall bytes :: BytesKey(bytes) in hashes ==> hashes[BytesKey(bytes)] == digestBytes(bytes)
  }

  lemma BytesLeaveValues(hashes: map<Frozen, string>, s: Schema, f: Json -> string, bytes: seq<int>, r: string)
    requires Agrees(hashes, s, f)
    ensures Agrees(hashes[BytesKey(bytes) := r], s, f)
  {
    hide HasType, Freeze;
    forall v | HasType(v, s) && Freeze(v) in hashes[BytesKey(bytes) := r]
      ensures hashes[BytesKey(bytes) := r][Freeze(v)] == f(v)
    {
      PairFrozen(v, bytes);
      TypedIsNoPair(v, s, bytes);
    }
  }

  lemma ValuesLeaveBytes(hashes: map<Frozen, string>, digestBytes: seq<int> -> string, v: Json, r: string)
    requires BytesRight(hashes, digestBytes)
    requires forall bytes :: v == PairOf(bytes) ==> r == digestBytes(bytes)
    ensures BytesRight(hashes[Freeze(v) := r], digestBytes)
  {
    hide Freeze;
    var t := hashes[Freeze(v) := r];
    forall bytes | BytesKey(bytes) in t ensures t[BytesKey(bytes)] == digestBytes(bytes) { PairFrozen(v, bytes); }
  }

  class Cache {
    const scalars: Scalars
    const digest: string -> string
    const digestBytes: seq<int> -> string
    const rules: Corpus.Rules
    var normalized: map<seq<Frozen>, seq<Corpus.Document>>
    var serialized: map<Frozen, string>
    var leakageSerialized: map<Frozen, string>
    var hashes: map<Frozen, string>
    var answerTokens: map<string, set<string>>
    var sourceIndexes: map<seq<string>, map<string, Corpus.Document>>
    var computed: nat
    var hits: nat

    constructor (scalars: Scalars, digest: string -> string, digestBytes: seq<int> -> string, rules: Corpus.Rules)
      ensures this.scalars == scalars && this.digest == digest && this.digestBytes == digestBytes && this.rules == rules
      ensures Valid() && computed == 0 && hits == 0
      ensures (forall s :: Serves(s)) && BytesRight(hashes, digestBytes)
      ensures Stored() == NO_TABLES && leakageSerialized == map[] && normalized == map[]
      ensures answerTokens == map[] && sourceIndexes == map[]
    {
      hide Freeze, CanonicalJson, HasType;
      this.scalars, this.digest, this.digestBytes, this.rules := scalars, digest, digestBytes, rules;
      normalized, serialized, leakageSerialized, hashes, answerTokens, sourceIndexes :=
        map[], map[], map[], map[], map[], map[];
      computed, hits := 0, 0;
    }

    /** The tables behind texts and hashes, and the functions behind those. */
    function Stored(): (t: Tables)
      reads this
    {
      Tables(serialized, hashes)
    }

    function Functions(): (u: Uncached) { Uncached(scalars, digest, digestBytes) }

    /** Every normalised corpus in the table is the one its key stands for. */
    ghost predicate Valid()
      reads this
    {
      CorporaRight(normalized, rules)
    }

    /** On values of schema `s` the serialisation and hash tables agree with the uncached functions. */
    ghost predicate Serves(s: Schema)
      reads this
    {
      && Agrees(serialized, s, (v: Json) => CanonicalJson(v, scalars))
      && Agrees(leakageSerialized, s, (v: Json) => CanonicalJson(v, scalars))
      && Agrees(hashes, s, (v: Json) => digest(CanonicalJson(v, scalars)))
    }

    /** The normalised documents, always as computed afresh: freezing tells documents apart. */
    method NormalizedDocuments(items: seq<Corpus.Document>) returns (r: Corpus.Normalized)
      requires Valid()
      modifies this`normalized, this`computed, this`hits
      ensures Valid() && r == Corpus.Normalize(items, rules)
      ensures computed + hits == old(computed + hits) + 1
      ensures hits == old(hits) + if FreezeAll(items) in old(normalized) then 1 else 0
      ensures normalized == if r.Ok? then old(normalized)[FreezeAll(items) := r.documents] else old(normalized)
    {
      hide Freeze, Corpus.Normalize;
      var key := FreezeAll(items);
      if key in normalized {
        hits := hits + 1;
        return Corpus.Ok(normalized[key]);
      }
      computed := computed + 1;
      r := Corpus.NormalizeRawItems(items, rules);
      if r.Ok? {
        CorpusAdded(normalized, rules, items);
        normalized := normalized[key := r.documents];
      }
    }

    /** A lookup answers what is stored under the frozen value, or the canonical JSON. */
    method Serialize(v: Json, leakage: bool) returns (r: string)
      modifies this`serialized, this`leakageSerialized, this`computed, this`hits
      ensures r == Lookup(old(if leakage then leakageSerialized else serialized), Freeze(v), CanonicalJson(v, scalars))
      ensures (if leakage then leakageSerialized else serialized)
           == Remember(old(if leakage then leakageSerialized else serialized), Freeze(v), CanonicalJson(v, scalars))
      ensures !leakage ==> (Stored(), r) == CallOn(old(Stored()), AsText(v), Functions())
      ensures computed + hits == old(computed + hits) + 1
      ensures hits == old(hits) + if Freeze(v) in old(if leakage then leakageSerialized else serialized) then 1 else 0
      ensures leakage ==> serialized == old(serialized)
      ensures !leakage ==> leakageSerialized == old(leakageSerialized)
      ensures forall s :: old(Serves(s)) && HasType(v, s) ==> Serves(s) && r == CanonicalJson(v, scalars)
    {
      hide Freeze, CanonicalJson, HasType, Agrees;
      var key := Freeze(v);
      var f := (w: Json) => CanonicalJson(w, scalars);
      forall s | Serves(s) && HasType(v, s)
        ensures var t := if leakage then leakageSerialized else serialized;
          Lookup(t, key, f(v)) == f(v) && Agrees(Remember(t, key, f(v)), s, f)
      {
        LookupAgrees(if leakage then leakageSerialized else serialized, s, f, v);
      }
      if leakage {
        if key in leakageSerialized {
          hits := hits + 1;
          return leakageSerialized[key];
        }
        r := CanonicalJson(v, scalars);
        leakageSerialized := leakageSerialized[key := r];
      } else {
        if key in serialized {
          hits := hits + 1;
          return serialized[key];
        }
        r := CanonicalJson(v, scalars);
        serialized := serialized[key := r];
      }
      computed := computed + 1;
    }

    /** The hash of some bytes: what is stored under their key, which is their digest as long as no value
        that freezes to such a key was hashed before. It leaves the answers for every schema alone. */
    method HashBytes(bytes: seq<int>) returns (r: string)
      modifies this`hashes, this`computed, this`hits
      ensures (Stored(), r) == CallOn(old(Stored()), OfBytes(bytes), Functions())
      ensures computed + hits == old(computed + hits) + 1
      ensures hits == old(hits) + if BytesKey(bytes) in old(hashes) then 1 else 0
      ensures r == Lookup(old(hashes), BytesKey(bytes), digestBytes(bytes))
      ensures hashes == Remember(old(hashes), BytesKey(bytes), digestBytes(bytes))
      ensures old(BytesRight(hashes, digestBytes)) ==> BytesRight(hashes, digestBytes) && r == digestBytes(bytes)
      ensures forall s :: old(Serves(s)) ==> Serves(s)
    {
      hide Freeze, CanonicalJson, HasType, Agrees;
      var key := BytesKey(bytes);
      forall s | Serves(s)
        ensures Agrees(hashes[key := digestBytes(bytes)], s, (v: Json) => digest(CanonicalJson(v, scalars)))
      {
        BytesLeaveValues(hashes, s, (v: Json) => digest(CanonicalJson(v, scalars)), bytes, digestBytes(bytes));
      }
      if key in hashes {
        hits := hits + 1;
        return hashes[key];
      }
      computed := computed + 1;
      r := digestBytes(bytes);
      hashes := hashes[key := r];
    }

    /** The hash of a value's canonical JSON, by way of `Serialize`. It leaves the answers for bytes alone
        unless the value is a pair that freezes to their key. */
    method HashJson(v: Json) returns (r: string)
      modifies this`serialized, this`leakageSerialized, this`hashes, this`computed, this`hits
      ensures (Stored(), r) == CallOn(old(Stored()), OfJson(v), Functions())
      ensures leakageSerialized == old(leakageSerialized)
      ensures computed + hits == old(computed + hits) + if Freeze(v) in old(hashes) then 1 else 2
      ensures r == Lookup(old(hashes), Freeze(v), digest(Lookup(old(serialized), Freeze(v), CanonicalJson(v, scalars))))
      ensures hashes ==
        Remember(old(hashes), Freeze(v), digest(Lookup(old(serialized), Freeze(v), CanonicalJson(v, scalars))))
      ensures old(BytesRight(hashes, digestBytes)) && (forall bytes :: v != PairOf(bytes)) ==>
        BytesRight(hashes, digestBytes)
      ensures forall s :: old(Serves(s)) && HasType(v, s) ==> Serves(s) && r == digest(CanonicalJson(v, scalars))
    {
      hide Freeze, CanonicalJson, HasType, Agrees, BytesRight;
      var key := Freeze(v);
      var f := (w: Json) => digest(CanonicalJson(w, scalars));
      forall s | Serves(s) && HasType(v, s)
        ensures Lookup(hashes, key, f(v)) == f(v) && Agrees(Remember(hashes, key, f(v)), s, f)
      {
        LookupAgrees(hashes, s, f, v);
      }
      if key in hashes {
        hits := hits + 1;
        return hashes[key];
      }
      computed := computed + 1;
      var text := Serialize(v, false);
      r := digest(text);
      if BytesRight(hashes, digestBytes) && forall bytes :: v != PairOf(bytes) {
        ValuesLeaveBytes(hashes, digestBytes, v, r);
      }
      hashes := hashes[key := r];
    }

    /** Tokens are stored under the answer alone, whatever the tokenizer. */
    method AnswerTokens(value: string, tokenizer: string -> set<string>) returns (r: set<string>)
      modifies this`answerTokens, this`computed, this`hits
      ensures computed + hits == old(computed + hits) + 1
      ensures hits == old(hits) + if value in old(answerTokens) then 1 else 0
      ensures r == Lookup(old(answerTokens), value, tokenizer(value))
      ensures answerTokens == Remember(old(answerTokens), value, tokenizer(value))
    {
      if value in answerTokens {
        hits := hits + 1;
        return answerTokens[value];
      }
      computed := computed + 1;
      r := tokenizer(value);
      answerTokens := answerTokens[value := r];
    }

    /** Indexes are stored under the ids alone, whatever the documents. */
    method SourceIndex(docs: seq<Corpus.Document>) returns (r: map<string, Corpus.Document>)
      modifies this`sourceIndexes, this`computed
      ensures computed == old(computed) + if IdsOf(docs) in old(sourceIndexes) then 0 else 1
      ensures r == Lookup(old(sourceIndexes), IdsOf(docs), IndexOf(docs))
      ensures sourceIndexes == Remember(old(sourceIndexes), IdsOf(docs), IndexOf(docs))
    {
      var key := IdsOf(docs);
      if key in sourceIndexes { return sourceIndexes[key]; }
      computed := computed + 1;
      r := IndexOf(docs);
      sourceIndexes := sourceIndexes[key := r];
    }
  }

  // ----- whole runs -----

  /** Any run of lookups on values of one schema answers as if nothing were cached. */
  lemma TypedRunsAgree(values: seq<Json>, s: Schema, scalars: Scalars)
    requires forall v :: v in values ==> HasType(v, s)
    ensures forall i: nat :: i < |values| ==>
      AnswerTo(values, Freeze, (v: Json) => CanonicalJson(v, scalars), i) == CanonicalJson(values[i], scalars)
  {
    hide Freeze, CanonicalJson, HasType;
    var f := (v: Json) => CanonicalJson(v, scalars);
    forall i: nat, j: nat | i < j < |values| && Freeze(values[i]) == Freeze(values[j])
      ensures f(values[i]) == f(values[j]) {
      assert values[i] in values && values[j] in values;
      FreezeInjective(values[i], values[j], s);
    }
    MemoExact(values, Freeze, f);
  }

  /** A run that mixes an empty object and an empty list gets a wrong answer. */
  lemma MixedRunGoesWrong(scalars: Scalars)
    ensures AnswerTo([JObj(map[]), JList([])], Freeze, (v: Json) => CanonicalJson(v, scalars), 1) == "{}"
  {
    EmptyValuesCollide(scalars);
    hide Freeze, CanonicalJson;
    var values, f := [JObj(map[]), JList([])], (v: Json) => CanonicalJson(v, scalars);
    AnswersStay(values, Freeze, f, 0, 1);
    assert values[..0] == [];
    TableNothing(values, Freeze, f);
  }

  // ----- runs of calls on the texts and the hashes -----

  /** What is looked up: a value's text, the hash of some bytes, or the hash of a value. */
  datatype CacheCall = AsText(value: Json) | OfBytes(bytes: seq<int>) | OfJson(value: Json)

  /** The functions behind the cache. */
  datatype Uncached = Uncached(scalars: Scalars, digest: string -> string, digestBytes: seq<int> -> string)

  /** The two tables: hashing a value reads its text through the first. */
  datatype Tables = Tables(texts: map<Frozen, string>, hashes: map<Frozen, string>)

  const NO_TABLES := Tables(map[], map[])

  function TextOf(v: Json, u: Uncached): (s: string) { CanonicalJson(v, u.scalars) }

  function CallKey(c: CacheCall): (key: Frozen) {
    if c.OfBytes? then BytesKey(c.bytes) else Freeze(c.value)
  }

  /** The answer without a cache. */
  function RightAnswer(c: CacheCall, u: Uncached): (r: string) {
    match c
    case AsText(v) => TextOf(v, u)
    case OfBytes(bytes) => u.digestBytes(bytes)
    case OfJson(v) => u.digest(TextOf(v, u))
  }

  /** One call: the tables after it, and its answer. */
  function CallOn(t: Tables, c: CacheCall, u: Uncached): (r: (Tables, string)) {
    var key := CallKey(c);
    match c
    case AsText(v) =>
      (t.(texts := Remember(t.texts, key, TextOf(v, u))), Lookup(t.texts, key, TextOf(v, u)))
    case OfBytes(bytes) =>
      (t.(hashes := Remember(t.hashes, key, u.digestBytes(bytes))), Lookup(t.hashes, key, u.digestBytes(bytes)))
    case OfJson(v) =>
      if key in t.hashes then (t, t.hashes[key])
      else
        var hash := u.digest(Lookup(t.texts, key, TextOf(v, u)));
        (Tables(Remember(t.texts, key, TextOf(v, u)), t.hashes[key := hash]), hash)
  }

  function TablesAfter(calls: seq<CacheCall>, u: Uncached): (t: Tables) {
    if calls == [] then NO_TABLES
    else CallOn(TablesAfter(calls[..|calls| - 1], u), calls[|calls| - 1], u).0
  }

  function CallAnswer(calls: seq<CacheCall>, u: Uncached, i: nat): (r: string)
    requires i < |calls|
  {
    CallOn(TablesAfter(calls[..i], u), calls[i], u).1
  }

  /** The first value with a key that is looked up, as text or for its hash. */
  function FirstWith(calls: seq<CacheCall>, key: Frozen): (v: Option<Json>)
    ensures v.Some? ==> Freeze(v.value) == key && (AsText(v.value) in calls || OfJson(v.value) in calls)
    ensures v.None? ==> forall c :: c in calls && !c.OfBytes? ==> Freeze(c.value) != key
  {
    if calls == [] then None
    else
      var last := calls[|calls| - 1];
      var before := FirstWith(calls[..|calls| - 1], key);
      assert last in calls && forall c :: c in calls <==> c in calls[..|calls| - 1] || c == last;
      if before.Some? then before
      else if !last.OfBytes? && Freeze(last.value) == key then Some(last.value)
      else None
  }

  lemma FirstStep(calls: seq<CacheCall>, c: CacheCall, key: Frozen)
    ensures FirstWith(calls + [c], key) ==
      if FirstWith(calls, key).Some? then FirstWith(calls, key)
      else if !c.OfBytes? && Freeze(c.value) == key then Some(c.value) else None
  {
    hide Freeze;
    assert (calls + [c])[..|calls|] == calls;
  }

  lemma TablesStep(calls: seq<CacheCall>, c: CacheCall, u: Uncached)
    ensures TablesAfter(calls + [c], u) == CallOn(TablesAfter(calls, u), c, u).0
  {
    hide CallOn;
    assert (calls + [c])[..|calls|] == calls;
  }

  /** Some bytes with that key were hashed. */
  ghost predicate BytesHashed(calls: seq<CacheCall>, key: Frozen) {
    exists bytes :: OfBytes(bytes) in calls && BytesKey(bytes) == key
  }

  /** The text stored under the key is that of the first value with it. */
  ghost predicate TextStored(calls: seq<CacheCall>, t: Tables, key: Frozen, u: Uncached) {
    && (key in t.texts ==> FirstWith(calls, key).Some? && t.texts[key] == TextOf(FirstWith(calls, key).value, u))
    && (FirstWith(calls, key).Some? ==> key in t.texts || BytesHashed(calls, key))
  }

  ghost predicate TextsStored(calls: seq<CacheCall>, t: Tables, u: Uncached) {
    forall key :: TextStored(calls, t, key, u)
  }

  /** The hash of the first value with the key, of which some value was hashed. */
  ghost predicate ValueHash(calls: seq<CacheCall>, key: Frozen, hash: string, u: Uncached) {
    && (exists v :: OfJson(v) in calls && Freeze(v) == key)
    && FirstWith(calls, key).Some? && hash == u.digest(TextOf(FirstWith(calls, key).value, u))
  }

  /** The hash of bytes with the key. */
  ghost predicate BytesHash(calls: seq<CacheCall>, key: Frozen, hash: string, u: Uncached) {
    exists bytes :: OfBytes(bytes) in calls && BytesKey(bytes) == key && hash == u.digestBytes(bytes)
  }

  /** Every stored hash is that of the first value with its key, or that of the bytes with it. */
  ghost predicate HashesStored(calls: seq<CacheCall>, t: Tables, u: Uncached) {
    && (forall key :: key in t.hashes ==>
          ValueHash(calls, key, t.hashes[key], u) || BytesHash(calls, key, t.hashes[key], u))
    && (forall c :: c in calls && !c.AsText? ==> CallKey(c) in t.hashes)
  }

  lemma NothingStored(u: Uncached)
    ensures TextsStored([], NO_TABLES, u) && HashesStored([], NO_TABLES, u) && TablesAfter([], u) == NO_TABLES
  {
  }

  // With bytes behind a key there is one value only that can have it.
  lemma OneValue(calls: seq<CacheCall>, v: Json)
    requires BytesHashed(calls, Freeze(v)) && FirstWith(calls, Freeze(v)).Some?
    ensures FirstWith(calls, Freeze(v)).value == v
  {
    hide Freeze;
    var bytes :| OfBytes(bytes) in calls && BytesKey(bytes) == Freeze(v);
    PairFrozen(v, bytes);
    PairFrozen(FirstWith(calls, Freeze(v)).value, bytes);
  }

  lemma StoredBytesStay(calls: seq<CacheCall>, c: CacheCall)
    ensures forall key :: BytesHashed(calls, key) ==> BytesHashed(calls + [c], key)
  {
    hide Freeze;
  }

  lemma TextsStep(calls: seq<CacheCall>, t: Tables, c: CacheCall, u: Uncached)
    requires TextsStored(calls, t, u) && HashesStored(calls, t, u)
    ensures TextsStored(calls + [c], CallOn(t, c, u).0, u)
  {
    hide TextStored, HashesStored, CallOn;
    forall key ensures TextStored(calls + [c], CallOn(t, c, u).0, key, u) {
      assert TextStored(calls, t, key, u);
      TextStep(calls, t, c, key, u);
    }
  }

  lemma TextStep(calls: seq<CacheCall>, t: Tables, c: CacheCall, key: Frozen, u: Uncached)
    requires TextStored(calls, t, key, u) && HashesStored(calls, t, u)
    ensures TextStored(calls + [c], CallOn(t, c, u).0, key, u)
  {
    hide Freeze, CanonicalJson, TextOf, BytesKey, HashesStored, FirstWith;
    StoredBytesStay(calls, c);
    FirstStep(calls, c, key);
    if !c.OfBytes? && Freeze(c.value) == key {
      if c.OfJson? && key in t.hashes { HashHasReason(calls, t, u, key); }
      if FirstWith(calls, key).Some? && BytesHashed(calls, key) { OneValue(calls, c.value); }
    }
    hide BytesHashed;
  }

  lemma HashHasReason(calls: seq<CacheCall>, t: Tables, u: Uncached, key: Frozen)
    requires HashesStored(calls, t, u) && key in t.hashes
    ensures FirstWith(calls, key).Some? || BytesHashed(calls, key)
  {
    hide Freeze, CanonicalJson, FirstWith;
  }

  lemma HashStillThere(calls: seq<CacheCall>, c: CacheCall, key: Frozen, hash: string, u: Uncached)
    ensures ValueHash(calls, key, hash, u) ==> ValueHash(calls + [c], key, hash, u)
    ensures BytesHash(calls, key, hash, u) ==> BytesHash(calls + [c], key, hash, u)
  {
    hide Freeze, CanonicalJson, TextOf, BytesKey, FirstWith;
    FirstStep(calls, c, key);
    assert forall x :: x in calls ==> x in calls + [c];
  }

  lemma NewReason(calls: seq<CacheCall>, t: Tables, c: CacheCall, u: Uncached)
    requires TextsStored(calls, t, u) && !c.AsText? && CallKey(c) !in t.hashes
    ensures var t' := CallOn(t, c, u).0; var key := CallKey(c);
      && t'.hashes.Keys == t.hashes.Keys + {key} && (forall k :: k in t.hashes ==> t'.hashes[k] == t.hashes[k])
      && (ValueHash(calls + [c], key, t'.hashes[key], u) || BytesHash(calls + [c], key, t'.hashes[key], u))
  {
    hide Freeze, CanonicalJson, TextOf, BytesKey, FirstWith, TextsStored;
    assert c in calls + [c];
    if c.OfJson? {
      NewHash(calls, t, c.value, u);
      assert OfJson(c.value) in calls + [c];
    } else {
      assert OfBytes(c.bytes) in calls + [c];
    }
  }

  lemma NoNewHash(calls: seq<CacheCall>, t: Tables, c: CacheCall, u: Uncached)
    requires c.AsText? || CallKey(c) in t.hashes
    ensures CallOn(t, c, u).0.hashes == t.hashes
  {
    hide Freeze, CanonicalJson, BytesKey;
  }

  lemma HashesStep(calls: seq<CacheCall>, t: Tables, c: CacheCall, u: Uncached)
    requires TextsStored(calls, t, u) && HashesStored(calls, t, u)
    ensures HashesStored(calls + [c], CallOn(t, c, u).0, u)
  {
    hide Freeze, CanonicalJson, ValueHash, BytesHash, CallKey, CallOn, TextsStored;
    if c.AsText? || CallKey(c) in t.hashes { NoNewHash(calls, t, c, u); } else { NewReason(calls, t, c, u); }
    forall key | key in t.hashes
      ensures ValueHash(calls + [c], key, t.hashes[key], u) || BytesHash(calls + [c], key, t.hashes[key], u)
    {
      HashStillThere(calls, c, key, t.hashes[key], u);
    }
    assert forall x :: x in calls + [c] <==> x in calls || x == c;
  }

  // The text a new hash is taken of is that of the first value with the key.
  lemma NewHash(calls: seq<CacheCall>, t: Tables, v: Json, u: Uncached)
    requires TextsStored(calls, t, u)
    ensures var first := FirstWith(calls + [OfJson(v)], Freeze(v));
      first.Some? && Lookup(t.texts, Freeze(v), TextOf(v, u)) == TextOf(first.value, u)
  {
    hide Freeze, CanonicalJson, TextOf;
    FirstStep(calls, OfJson(v), Freeze(v));
    assert TextStored(calls, t, Freeze(v), u);
    if FirstWith(calls, Freeze(v)).Some? && Freeze(v) !in t.texts { OneValue(calls, v); }
  }

  lemma {:induction false} TablesStored(calls: seq<CacheCall>, u: Uncached)
    ensures TextsStored(calls, TablesAfter(calls, u), u) && HashesStored(calls, TablesAfter(calls, u), u)
  {
    hide *;
    if calls == [] {
      NothingStored(u);
    } else {
      var n := |calls| - 1;
      var before := calls[..n];
      assert calls == before + [calls[n]];
      TablesStored(before, u);
      TablesStep(before, calls[n], u);
      TextsStep(before, TablesAfter(before, u), calls[n], u);
      HashesStep(before, TablesAfter(before, u), calls[n], u);
    }
  }

  /** What a call answers: a text is that of the first value with its key; so is a hash, unless bytes meet
      the pair with their key. */
  lemma AnswerIs(before: seq<CacheCall>, c: CacheCall, u: Uncached)
    ensures var r := CallOn(TablesAfter(before, u), c, u).1;
      && (!c.OfBytes? ==> FirstWith(before + [c], CallKey(c)).Some?)
      && (c.AsText? ==> r == TextOf(FirstWith(before + [c], CallKey(c)).value, u))
      && (c.OfJson? ==>
            || r == u.digest(TextOf(FirstWith(before + [c], CallKey(c)).value, u))
            || exists bytes :: OfBytes(bytes) in before && c.value == PairOf(bytes) && r == u.digestBytes(bytes))
      && (c.OfBytes? ==>
            || r == u.digestBytes(c.bytes)
            || (OfJson(PairOf(c.bytes)) in before && r == u.digest(TextOf(PairOf(c.bytes), u))))
  {
    TablesStored(before, u);
    hide Freeze, CanonicalJson, TextOf, PairOf, BytesKey, TablesAfter;
    var t := TablesAfter(before, u);
    if c.OfBytes? {
      BytesAnswer(before, t, c.bytes, u);
    } else {
      FirstStep(before, c, Freeze(c.value));
      assert TextStored(before, t, Freeze(c.value), u);
      if FirstWith(before, Freeze(c.value)).Some? && Freeze(c.value) !in t.texts { OneValue(before, c.value); }
      if c.OfJson? { JsonAnswer(before, t, c.value, u); }
    }
  }

  lemma BytesAnswer(before: seq<CacheCall>, t: Tables, bytes: seq<int>, u: Uncached)
    requires HashesStored(before, t, u)
    ensures var r := CallOn(t, OfBytes(bytes), u).1;
      || r == u.digestBytes(bytes)
      || (OfJson(PairOf(bytes)) in before && r == u.digest(TextOf(PairOf(bytes), u)))
  {
    hide Freeze, CanonicalJson, TextOf, PairOf, FirstWith, BytesKey;
    var key := BytesKey(bytes);
    SameBytes(bytes);
    if key in t.hashes && ValueHash(before, key, t.hashes[key], u) {
      var v :| OfJson(v) in before && Freeze(v) == key;
      PairFrozen(v, bytes);
      PairFrozen(FirstWith(before, key).value, bytes);
    }
  }

  lemma SameBytes(bytes: seq<int>)
    ensures forall other :: BytesKey(other) == BytesKey(bytes) ==> other == bytes
  {
    assert BytesKey(bytes).items[1] == FBytes(bytes);
    assert forall other :: BytesKey(other).items[1] == FBytes(other);
  }

  lemma JsonAnswer(before: seq<CacheCall>, t: Tables, v: Json, u: Uncached)
    requires TextsStored(before, t, u) && HashesStored(before, t, u)
    ensures var r := CallOn(t, OfJson(v), u).1;
      || r == u.digest(TextOf(FirstWith(before + [OfJson(v)], Freeze(v)).value, u))
      || exists bytes :: OfBytes(bytes) in before && v == PairOf(bytes) && r == u.digestBytes(bytes)
  {
    hide Freeze, CanonicalJson, TextOf, PairOf, FirstWith, BytesKey, TextsStored;
    var key := Freeze(v);
    FirstStep(before, OfJson(v), key);
    if key !in t.hashes {
      NewHash(before, t, v, u);
    } else if BytesHash(before, key, t.hashes[key], u) {
      var bytes :| OfBytes(bytes) in before && BytesKey(bytes) == key && t.hashes[key] == u.digestBytes(bytes);
      PairFrozen(v, bytes);
    }
  }

  /** A hash that was answered once is answered for good. */
  lemma {:induction false} HashStays(calls: seq<CacheCall>, u: Uncached, i: nat, j: nat)
    requires i < j <= |calls| && !calls[i].AsText?
    ensures CallKey(calls[i]) in TablesAfter(calls[..j], u).hashes
    ensures TablesAfter(calls[..j], u).hashes[CallKey(calls[i])] == CallAnswer(calls, u, i)
    decreases j
  {
    hide Freeze, CanonicalJson, TablesAfter;
    assert calls[..j] == calls[..j - 1] + [calls[j - 1]];
    TablesStep(calls[..j - 1], calls[j - 1], u);
    if i < j - 1 { HashStays(calls, u, i, j - 1); }
  }

  lemma SameHash(calls: seq<CacheCall>, u: Uncached, i: nat, j: nat)
    requires i < j < |calls| && !calls[i].AsText? && !calls[j].AsText? && CallKey(calls[i]) == CallKey(calls[j])
    ensures CallAnswer(calls, u, i) == CallAnswer(calls, u, j)
  {
    HashStays(calls, u, i, j);
    hide Freeze, CanonicalJson, TablesAfter;
  }

  /** Looked up as text a value must have the text of the first one with its key; looked up for its hash,
      that text's hash. */
  ghost predicate FirstAgrees(calls: seq<CacheCall>, c: CacheCall, u: Uncached)
    requires c in calls && !c.OfBytes?
  {
    var first := FirstWith(calls, Freeze(c.value)).value;
    if c.AsText? then TextOf(first, u) == TextOf(c.value, u)
    else u.digest(TextOf(first, u)) == u.digest(TextOf(c.value, u))
  }

  ghost predicate FirstsAgree(calls: seq<CacheCall>, u: Uncached) {
    forall c :: c in calls && !c.OfBytes? ==> FirstAgrees(calls, c, u)
  }

  /** Some bytes are hashed, and so is the pair that freezes to their key, with another hash. */
  ghost predicate PairClash(calls: seq<CacheCall>, u: Uncached) {
    exists bytes :: OfBytes(bytes) in calls && OfJson(PairOf(bytes)) in calls
                    && u.digest(TextOf(PairOf(bytes), u)) != u.digestBytes(bytes)
  }

  ghost predicate AllRight(calls: seq<CacheCall>, u: Uncached) {
    forall i: nat :: i < |calls| ==> CallAnswer(calls, u, i) == RightAnswer(calls[i], u)
  }

  lemma {:induction false} FirstStaysFirst(calls: seq<CacheCall>, i: nat, key: Frozen)
    requires i <= |calls| && FirstWith(calls[..i], key).Some?
    ensures FirstWith(calls, key) == FirstWith(calls[..i], key)
  {
    hide *;
    if i < |calls| {
      var n := |calls| - 1;
      assert calls[..n][..i] == calls[..i];
      FirstStaysFirst(calls[..n], i, key);
      FirstStep(calls[..n], calls[n], key);
      assert calls == calls[..n] + [calls[n]];
    } else {
      assert calls[..i] == calls;
    }
  }

  /** All answers of a run on a new cache are right, texts and hashes, in whatever order they are asked for,
      exactly when every value agrees with the first one that has its key and no bytes meet the pair that
      freezes to theirs. */
  lemma HashRunExact(calls: seq<CacheCall>, u: Uncached)
    ensures AllRight(calls, u) <==> FirstsAgree(calls, u) && !PairClash(calls, u)
  {
    hide *;
    if AllRight(calls, u) {
      RightMeansAgree(calls, u);
      RightMeansNoClash(calls, u);
    }
    if FirstsAgree(calls, u) && !PairClash(calls, u) { AgreeMeansRight(calls, u); }
  }

  lemma AnswerOfCall(calls: seq<CacheCall>, u: Uncached, i: nat)
    requires i < |calls|
    ensures CallAnswer(calls, u, i) == CallOn(TablesAfter(calls[..i], u), calls[i], u).1
  {
  }

  lemma AnswerAt(calls: seq<CacheCall>, u: Uncached, i: nat)
    requires i < |calls|
    ensures var c, r := calls[i], CallAnswer(calls, u, i);
      && (!c.OfBytes? ==> FirstWith(calls, CallKey(c)).Some?)
      && (c.AsText? ==> r == TextOf(FirstWith(calls, CallKey(c)).value, u))
      && (c.OfJson? ==>
            || r == u.digest(TextOf(FirstWith(calls, CallKey(c)).value, u))
            || exists bytes :: OfBytes(bytes) in calls && c.value == PairOf(bytes) && r == u.digestBytes(bytes))
      && (c.OfBytes? ==>
            || r == u.digestBytes(c.bytes)
            || (OfJson(PairOf(c.bytes)) in calls && r == u.digest(TextOf(PairOf(c.bytes), u))))
  {
    hide *;
    var before, c := calls[..i], calls[i];
    AnswerIs(before, c, u);
    AnswerOfCall(calls, u, i);
    assert calls[..i + 1] == before + [c];
    if !c.OfBytes? { FirstStaysFirst(calls, i + 1, CallKey(c)); }
    assert forall x :: x in before ==> x in calls;
  }

  lemma RightMeansAgree(calls: seq<CacheCall>, u: Uncached)
    requires AllRight(calls, u)
    ensures FirstsAgree(calls, u)
  {
    forall c | c in calls && !c.OfBytes? ensures FirstAgrees(calls, c, u) {
      var i: nat :| i < |calls| && calls[i] == c;
      AnswerAt(calls, u, i);
      PairIsFirst(calls, c.value);
      hide Freeze, CanonicalJson, TextOf, PairOf, CallAnswer, FirstWith;
      assert CallAnswer(calls, u, i) == RightAnswer(c, u);
    }
  }

  lemma PairIsFirst(calls: seq<CacheCall>, v: Json)
    ensures forall bytes :: v == PairOf(bytes) && FirstWith(calls, Freeze(v)).Some? ==>
      FirstWith(calls, Freeze(v)).value == v
  {
    hide Freeze;
    forall bytes | v == PairOf(bytes) && FirstWith(calls, Freeze(v)).Some?
      ensures FirstWith(calls, Freeze(v)).value == v {
      PairFrozen(v, bytes);
      PairFrozen(FirstWith(calls, Freeze(v)).value, bytes);
    }
  }

  lemma RightMeansNoClash(calls: seq<CacheCall>, u: Uncached)
    requires AllRight(calls, u)
    ensures !PairClash(calls, u)
  {
    hide Freeze, CanonicalJson, TextOf, PairOf, CallAnswer;
    forall bytes | OfBytes(bytes) in calls && OfJson(PairOf(bytes)) in calls
      ensures u.digest(TextOf(PairOf(bytes), u)) == u.digestBytes(bytes)
    {
      var i: nat :| i < |calls| && calls[i] == OfBytes(bytes);
      var j: nat :| j < |calls| && calls[j] == OfJson(PairOf(bytes));
      PairFrozen(PairOf(bytes), bytes);
      if i < j { SameHash(calls, u, i, j); } else { SameHash(calls, u, j, i); }
      assert CallAnswer(calls, u, i) == RightAnswer(calls[i], u);
      assert CallAnswer(calls, u, j) == RightAnswer(calls[j], u);
    }
  }

  lemma AgreeMeansRight(calls: seq<CacheCall>, u: Uncached)
    requires FirstsAgree(calls, u) && !PairClash(calls, u)
    ensures AllRight(calls, u)
  {
    hide Freeze, CanonicalJson, TextOf, PairOf, CallAnswer, FirstWith;
    forall i: nat | i < |calls| ensures CallAnswer(calls, u, i) == RightAnswer(calls[i], u) {
      AnswerAt(calls, u, i);
      assert calls[i] in calls;
      if !calls[i].OfBytes? { assert FirstAgrees(calls, calls[i], u); }
    }
  }

  /** Runs over bytes and values of one schema always get the right texts and hashes. */
  lemma TypedHashesAgree(calls: seq<CacheCall>, s: Schema, u: Uncached)
    requires forall c :: c in calls && !c.OfBytes? ==> HasType(c.value, s)
    ensures AllRight(calls, u)
  {
    hide Freeze, CanonicalJson, HasType, TextOf, AllRight, PairOf;
    HashRunExact(calls, u);
    forall c | c in calls && !c.OfBytes? ensures FirstAgrees(calls, c, u) {
      var first := FirstWith(calls, Freeze(c.value));
      assert first.Some? && HasType(first.value, s) by {
        if AsText(first.value) in calls { assert AsText(first.value).value == first.value; }
        if OfJson(first.value) in calls { assert OfJson(first.value).value == first.value; }
      }
      FreezeInjective(first.value, c.value, s);
    }
    forall bytes ensures OfJson(PairOf(bytes)) !in calls {
      if OfJson(PairOf(bytes)) in calls { TypedIsNoPair(OfJson(PairOf(bytes)).value, s, bytes); }
    }
  }

  lemma TwoCalls(a: CacheCall, b: CacheCall, u: Uncached)
    ensures CallAnswer([a, b], u, 1) == CallOn(CallOn(NO_TABLES, a, u).0, b, u).1
  {
    hide CallOn;
    assert [a, b][..1] == [] + [a];
    TablesStep([], a, u);
  }

  /** A pair hashed first gives later bytes its own hash, and the other way round. */
  lemma BytesCollideWithPair(bytes: seq<int>, u: Uncached)
    ensures CallAnswer([OfJson(PairOf(bytes)), OfBytes(bytes)], u, 1) == RightAnswer(OfJson(PairOf(bytes)), u)
    ensures CallAnswer([OfBytes(bytes), OfJson(PairOf(bytes))], u, 1) == RightAnswer(OfBytes(bytes), u)
  {
    PairFrozen(PairOf(bytes), bytes);
    hide Freeze, CanonicalJson, PairOf, BytesKey;
    TwoCalls(OfJson(PairOf(bytes)), OfBytes(bytes), u);
    TwoCalls(OfBytes(bytes), OfJson(PairOf(bytes)), u);
  }

  /** A text serialised before feeds a later hash: `{}` and then `[]`, each by itself right, together wrong. */
  lemma TextFeedsHash(u: Uncached)
    ensures CallAnswer([AsText(JObj(map[])), OfJson(JList([]))], u, 1) == u.digest("{}")
    ensures RightAnswer(OfJson(JList([])), u) == u.digest("[]")
  {
    EmptyValuesCollide(u.scalars);
    hide Freeze, CanonicalJson;
    TwoCalls(AsText(JObj(map[])), OfJson(JList([])), u);
  }

  /** The source index is right over a whole run exactly when lookups with the same ids, in the same
      order, agree on the document behind each id. */
  lemma SourceIndexExact(lookups: seq<seq<Corpus.Document>>)
    ensures (forall i: nat :: i < |lookups| ==> AnswerTo(lookups, IdsOf, IndexOf, i) == IndexOf(lookups[i])) <==>
      forall i: nat, j: nat :: i < j < |lookups| && IdsOf(lookups[i]) == IdsOf(lookups[j]) ==>
        IndexOf(lookups[i]) == IndexOf(lookups[j])
  {
    hide AnswerTo, IndexOf, IdsOf;
    MemoExact(lookups, IdsOf, IndexOf);
  }

  /** A document looked up again under its id after it was edited: the cache still has the old one. */
  lemma EditedDocumentIsStale(d: Corpus.Document, e: Corpus.Document)
    requires d.sourceId == e.sourceId && d != e
    ensures AnswerTo([[d], [e]], IdsOf, IndexOf, 1) == map[e.sourceId := d]
    ensures IndexOf([e]) == map[e.sourceId := e]
  {
    var lookups := [[d], [e]];
    assert IdsOf([d]) == IdsOf([e]);
    assert [d][..0] == [] && [e][..0] == [];
    AnswersStay(lookups, IdsOf, IndexOf, 0, 1);
    assert lookups[..0] == [];
    TableNothing(lookups, IdsOf, IndexOf);
    assert AnswerTo(lookups, IdsOf, IndexOf, 0) == IndexOf([d]);
  }

  /** Tokens are right over a whole run exactly when nobody looks one answer up with two tokenizers that
      differ on it. */
  lemma AnswerTokensExact(lookups: seq<(string, string -> set<string>)>)
    ensures (forall i: nat :: i < |lookups| ==>
        AnswerTo(lookups, (l: (string, string -> set<string>)) => l.0, (l: (string, string -> set<string>)) => l.1(l.0),
          i) == lookups[i].1(lookups[i].0)) <==>
      forall i: nat, j: nat :: i < j < |lookups| && lookups[i].0 == lookups[j].0 ==>
        lookups[i].1(lookups[i].0) == lookups[j].1(lookups[j].0)
  {
    var key, f := (l: (string, string -> set<string>)) => l.0, (l: (string, string -> set<string>)) => l.1(l.0);
    MemoExact(lookups, key, f);
    hide AnswerTo;
    assert forall i: nat :: i < |lookups| ==>
      key(lookups[i]) == lookups[i].0 && f(lookups[i]) == lookups[i].1(lookups[i].0);
  }
}
