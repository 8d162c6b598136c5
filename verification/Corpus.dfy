/** Normalising a corpus: exact duplicates merge into one document.

    A loop folds the prepared documents, sorted by id, into a dictionary keyed by text: the first
    one with a text starts an entry, every later one merges its references and its URL into it.
    What the fold leaves behind is described without it:
    1. an entry is the summary of its group, the documents with its text in id order: the first of
       them, with the references and ids of all, and the URLs of all (`Summary`, `FoldSummarises`);
    2. so an entry is led by the least id and carries exactly the union of its group
       (`LeastIdLeads`, `EachResultIsTheUnion`), there is one per text (`OneResultPerText`), and for
       different ids the order of the input does not matter (`NormalizeIgnoresOrder`).

    Normalising what has been normalised starts every entry afresh, with the document's own URL in
    place of the joined ones. This is the only thing a second pass changes, and a third pass changes
    nothing (`SecondAndThirdPass`); which inputs are left alone altogether is said exactly
    (`IdempotentIff`). */
module Corpus {
  import opened Options
  import opened Ordering

  datatype Document = Document(
    sourceId: string, sourceKind: string, canonicalUrl: string, title: string, text: string, contentHash: string,
    createdAt: Option<string>, updatedAt: Option<string>, container: Option<string>, authors: seq<string>,
    relatedSourceIds: seq<string>, sourceReferences: seq<string>, crawlProvenance: map<string, string>,
    warnings: seq<string>, metadata: map<string, string>)

  datatype Normalized = Ok(documents: seq<Document>) | Refused(sourceId: string)

  /** The text hash, the test for prompt-like text, and the boundary check. */
  datatype Rules = Rules(hash: string -> string, promptLike: string -> bool, rejects: Document -> bool)

  function PromptWarning(): string { "prompt-like source instructions " + "preserved as inert data" }

  function Prepare(d: Document, rules: Rules): (p: Document) {
    d.(contentHash := rules.hash(d.text),
       warnings := SortedSet(d.warnings + if rules.promptLike(d.text) then [PromptWarning()] else []))
  }

  function PrepareAll(docs: seq<Document>, rules: Rules): (r: seq<Document>)
    ensures |r| == |docs| && forall i :: 0 <= i < |docs| ==> r[i] == Prepare(docs[i], rules)
  {
    if docs == [] then [] else PrepareAll(docs[..|docs| - 1], rules) + [Prepare(docs[|docs| - 1], rules)]
  }

  // ----- comma-separated URLs -----

  function NextComma(s: string): (k: nat)
    ensures k <= |s| && (k < |s| ==> s[k] == ',')
  {
    if s == "" || s[0] == ',' then 0 else 1 + NextComma(s[1..])
  }

  /** The non-empty parts between commas. */
  function SplitRefs(s: string): (r: seq<string>)
    decreases |s|
  {
    if s == "" then []
    else
      var k := NextComma(s);
      (if k == 0 then [] else [s[..k]]) + (if k == |s| then [] else SplitRefs(s[k + 1..]))
  }

  function JoinRefs(xs: seq<string>): (s: string) {
    if xs == [] then "" else if |xs| == 1 then xs[0] else xs[0] + "," + JoinRefs(xs[1..])
  }

  predicate Part(x: string) { x != "" && ',' !in x }

  lemma {:induction false} NextCommaAt(x: string, rest: string)
    requires ',' !in x
    ensures NextComma(x) == |x|
    ensures NextComma(x + "," + rest) == |x|
  {
    var t := x + "," + rest;
    assert t[|x|] == ',';
    if x != "" {
      assert x[0] in x && t[0] == x[0] && t[1..] == x[1..] + "," + rest;
      NextCommaAt(x[1..], rest);
    }
  }

  lemma SplitFirst(x: string, rest: string)
    requires Part(x)
    ensures SplitRefs(x + "," + rest) == [x] + SplitRefs(rest)
  {
    NextCommaAt(x, rest);
    var t := x + "," + rest;
    assert t[..|x|] == x && t[|x| + 1..] == rest;
  }

  lemma SplitLast(x: string)
    requires Part(x)
    ensures SplitRefs(x) == [x]
  {
    NextCommaAt(x, "");
    assert x[..|x|] == x;
  }

  lemma JoinFirst(xs: seq<string>)
    requires xs != []
    ensures JoinRefs(xs) == if |xs| == 1 then xs[0] else xs[0] + "," + JoinRefs(xs[1..])
  {
  }

  lemma SplitNothing()
    ensures SplitRefs(JoinRefs([])) == []
  {
  }

  /** Splitting undoes joining, for parts that are not empty and have no comma. */
  lemma {:induction false} SplitJoined(xs: seq<string>)
    requires forall x :: x in xs ==> Part(x)
    ensures SplitRefs(JoinRefs(xs)) == xs
  {
    hide *;
    if xs == [] {
      SplitNothing();
    } else {
      var x, rest := xs[0], xs[1..];
      assert x in xs && xs == [x] + rest;
      JoinFirst(xs);
      if |xs| == 1 {
        SplitLast(x);
      } else {
        assert forall y :: y in rest ==> y in xs;
        SplitJoined(rest);
        SplitFirst(x, JoinRefs(rest));
      }
    }
  }

  // ----- merging -----

  function WithUrls(d: Document, urls: string): (r: Document) { d.(metadata := d.metadata["source_urls" := urls]) }

  function Open(d: Document): (r: Document) {
    WithUrls(d.(sourceReferences := SortedSet(d.sourceReferences + [d.sourceId])), d.canonicalUrl)
  }

  function UrlsOf(d: Document): (s: string) {
    if "source_urls" in d.metadata then d.metadata["source_urls"] else ""
  }

  function Merge(existing: Document, d: Document): (r: Document) {
    WithUrls(existing.(sourceReferences := SortedSet(existing.sourceReferences + d.sourceReferences + [d.sourceId])),
             JoinRefs(SortedSet(SplitRefs(UrlsOf(existing)) + [d.canonicalUrl])))
  }

  function Find(docs: seq<Document>, text: string): (k: nat)
    ensures k <= |docs| && (k < |docs| ==> docs[k].text == text)
    ensures forall i :: 0 <= i < k ==> docs[i].text != text
  {
    if docs == [] || docs[0].text == text then 0 else 1 + Find(docs[1..], text)
  }

  /** One entry per text, in the order the texts come up. */
  function Fold(docs: seq<Document>): (r: seq<Document>) {
    if docs == [] then []
    else
      var before, d := Fold(docs[..|docs| - 1]), docs[|docs| - 1];
      var k := Find(before, d.text);
      if k == |before| then before + [Open(d)] else before[k := Merge(before[k], d)]
  }

  predicate BySource(a: Document, b: Document) { StrLe(a.sourceId, b.sourceId) }

  /** The first document the boundary check refuses, if any. */
  function FirstRefused(docs: seq<Document>, rules: Rules): (k: nat)
    ensures k <= |docs| && (k < |docs| ==> rules.rejects(docs[k])) && forall i :: 0 <= i < k ==> !rules.rejects(docs[i])
  {
    if docs == [] || rules.rejects(docs[0]) then 0 else 1 + FirstRefused(docs[1..], rules)
  }

  function Normalize(docs: seq<Document>, rules: Rules): (r: Normalized) {
    var prepared := PrepareAll(docs, rules);
    var k := FirstRefused(prepared, rules);
    if k < |prepared| then Refused(prepared[k].sourceId)
    else Ok(Sort(Fold(Sort(prepared, BySource)), BySource))
  }

  // ----- the loops -----

  function KeyOf(text: string, rules: Rules): (k: (string, string)) { (rules.hash(text), text) }

  /** Entry `i` of the dictionary, in insertion order, is `values[i]`. */
  ghost predicate Holds(byContent: map<(string, string), Document>, order: seq<string>, rules: Rules,
    values: seq<Document>) {
    |order| == |values| && forall i :: 0 <= i < |order| ==>
      KeyOf(order[i], rules) in byContent && byContent[KeyOf(order[i], rules)] == values[i]
        && values[i].text == order[i]
  }

  /** The dictionary's values in insertion order. */
  ghost predicate Values(byContent: map<(string, string), Document>, order: seq<string>, rules: Rules,
    values: seq<Document>) {
    && Holds(byContent, order, rules, values)
    && (forall k :: k in byContent ==> k.1 in order && k == KeyOf(k.1, rules))
    && Distinct(order)
  }

  method FillByContent(sorted: seq<Document>, rules: Rules) returns (values: seq<Document>)
    requires forall d :: d in sorted ==> d.contentHash == rules.hash(d.text)
    ensures values == Fold(sorted)
  {
    hide *;
    var byContent: map<(string, string), Document> := map[];
    var order: seq<string> := [];
    ghost var folded: seq<Document> := [];
    FoldNothing(rules);
    assert sorted[..0] == [];
    for i := 0 to |sorted|
      invariant folded == Fold(sorted[..i])
      invariant Values(byContent, order, rules, folded)
    {
      var d := sorted[i];
      assert sorted[..i + 1] == sorted[..i] + [d];
      FoldStep(sorted[..i], d);
      var key := (d.contentHash, d.text);
      if key !in byContent {
        AbsentText(byContent, order, rules, folded, d);
        order := order + [d.text];
        byContent := byContent[key := Open(d)];
        folded := folded + [Open(d)];
      } else {
        PresentText(byContent, order, rules, folded, d);
        byContent := byContent[key := Merge(byContent[key], d)];
        folded := folded[Find(folded, d.text) := Merge(folded[Find(folded, d.text)], d)];
      }
    }
    assert sorted[..|sorted|] == sorted;
    ValuesAre(byContent, order, rules, folded);
    values := seq(|order|, i
      requires 0 <= i < |order| && KeyOf(order[i], rules) in byContent => byContent[KeyOf(order[i], rules)]);
    assert values == folded;
  }

  lemma ValuesAre(byContent: map<(string, string), Document>, order: seq<string>, rules: Rules, values: seq<Document>)
    requires Values(byContent, order, rules, values)
    ensures |order| == |values|
    ensures forall i :: 0 <= i < |order| ==>
      KeyOf(order[i], rules) in byContent && byContent[KeyOf(order[i], rules)] == values[i]
  {
    hide Distinct;
  }

  lemma FoldNothing(rules: Rules)
    ensures Fold([]) == [] && Values(map[], [], rules, [])
  {
  }

  lemma FoldStep(docs: seq<Document>, d: Document)
    ensures var k := Find(Fold(docs), d.text);
      Fold(docs + [d]) == if k == |Fold(docs)| then Fold(docs) + [Open(d)] else Fold(docs)[k := Merge(Fold(docs)[k], d)]
  {
    assert (docs + [d])[..|docs|] == docs;
    hide Merge, Open, Find;
  }

  lemma MergeKeepsText(d: Document)
    ensures Open(d).text == d.text && Open(d).sourceId == d.sourceId
  {
    hide SortedSet;
  }

  lemma MergeKeeps(e: Document, d: Document)
    ensures Merge(e, d).text == e.text && Merge(e, d).sourceId == e.sourceId
      && Merge(e, d).canonicalUrl == e.canonicalUrl
  {
    hide SortedSet, JoinRefs, SplitRefs;
  }

  lemma AbsentText(byContent: map<(string, string), Document>, order: seq<string>, rules: Rules, values: seq<Document>,
    d: Document)
    requires Values(byContent, order, rules, values) && d.contentHash == rules.hash(d.text)
    requires (d.contentHash, d.text) !in byContent
    ensures Find(values, d.text) == |values|
    ensures Values(byContent[(d.contentHash, d.text) := Open(d)], order + [d.text], rules, values + [Open(d)])
  {
    hide Find, Open, Distinct;
    FindFacts(values, d.text);
    MergeKeepsText(d);
    assert KeyOf(d.text, rules) == (d.contentHash, d.text);
    assert d.text !in order;
    DistinctAppend(order, d.text);
    HoldsMore(byContent, order, rules, values, d);
    hide Holds;
  }

  lemma HoldsMore(byContent: map<(string, string), Document>, order: seq<string>, rules: Rules, values: seq<Document>,
    d: Document)
    requires Holds(byContent, order, rules, values) && d.contentHash == rules.hash(d.text) && d.text !in order
    ensures Holds(byContent[(d.contentHash, d.text) := Open(d)], order + [d.text], rules, values + [Open(d)])
  {
    hide Open;
    MergeKeepsText(d);
  }

  lemma DistinctAppend(s: seq<string>, x: string)
    requires Distinct(s) && x !in s
    ensures Distinct(s + [x])
  {
  }

  lemma PresentText(byContent: map<(string, string), Document>, order: seq<string>, rules: Rules, values: seq<Document>,
    d: Document)
    requires Values(byContent, order, rules, values) && d.contentHash == rules.hash(d.text)
    requires (d.contentHash, d.text) in byContent
    ensures var k := Find(values, d.text); var merged := Merge(byContent[(d.contentHash, d.text)], d);
      k < |values| && Merge(values[k], d) == merged
      && Values(byContent[(d.contentHash, d.text) := merged], order, rules, values[k := merged])
  {
    hide Find, Merge;
    FindFacts(values, d.text);
    var i :| 0 <= i < |order| && order[i] == d.text;
    var k := Find(values, d.text);
    assert i == k by { assert values[i].text == d.text; }
    assert KeyOf(order[k], rules) == (d.contentHash, d.text);
    var merged := Merge(byContent[(d.contentHash, d.text)], d);
    MergeKeeps(byContent[(d.contentHash, d.text)], d);
    HoldsUpdated(byContent, order, rules, values, k, merged);
    hide Holds, Distinct;
  }

  lemma HoldsUpdated(
    byContent: map<(string, string), Document>, order: seq<string>, rules: Rules, values: seq<Document>, k: nat,
    merged: Document)
    requires Holds(byContent, order, rules, values) && Distinct(order) && k < |order| && merged.text == order[k]
    ensures Holds(byContent[KeyOf(order[k], rules) := merged], order, rules, values[k := merged])
  {
  }

  lemma FindFacts(values: seq<Document>, text: string)
    ensures var k := Find(values, text);
      k <= |values| && (k < |values| ==> values[k].text == text) && forall i :: 0 <= i < k ==> values[i].text != text
  {
  }

  method NormalizeRawItems(items: seq<Document>, rules: Rules) returns (r: Normalized)
    ensures r == Normalize(items, rules)
  {
    hide Sort, Fold, Prepare, Merge, Open;
    var prepared: seq<Document> := [];
    for i := 0 to |items|
      invariant prepared == PrepareAll(items[..i], rules)
      invariant forall k :: 0 <= k < i ==> !rules.rejects(prepared[k])
    {
      var document := Prepare(items[i], rules);
      assert items[..i + 1][..i] == items[..i];
      if rules.rejects(document) {
        RefusedAt(items, rules, i);
        return Refused(document.sourceId);
      }
      prepared := prepared + [document];
    }
    assert items[..|items|] == items;
    var sorted := Sort(prepared, BySource);
    PreparedHashes(items, rules);
    SortMembers(prepared, BySource);
    var values := FillByContent(sorted, rules);
    r := Ok(Sort(values, BySource));
  }

  lemma RefusedAt(items: seq<Document>, rules: Rules, i: nat)
    requires i < |items| && rules.rejects(Prepare(items[i], rules))
    requires forall k :: 0 <= k < i ==> !rules.rejects(Prepare(items[k], rules))
    ensures Normalize(items, rules) == Refused(Prepare(items[i], rules).sourceId)
  {
    hide Prepare, Sort, Fold;
    var k := FirstRefused(PrepareAll(items, rules), rules);
    assert rules.rejects(PrepareAll(items, rules)[i]);
  }

  lemma PreparedHashes(items: seq<Document>, rules: Rules)
    ensures forall d :: d in PrepareAll(items, rules) ==> d.contentHash == rules.hash(d.text)
  {
    hide SortedSet;
  }

  // ----- what comes out -----

  function Group(docs: seq<Document>, text: string): (g: seq<Document>) {
    if docs == [] then []
    else Group(docs[..|docs| - 1], text) + if docs[|docs| - 1].text == text then [docs[|docs| - 1]] else []
  }

  /** The references of all of them, and their own ids. */
  function AllReferences(g: seq<Document>): (r: seq<string>) {
    if g == [] then []
    else AllReferences(g[..|g| - 1]) + g[|g| - 1].sourceReferences + [g[|g| - 1].sourceId]
  }

  function AllUrls(g: seq<Document>): (r: seq<string>)
    ensures |r| == |g| && forall i :: 0 <= i < |g| ==> r[i] == g[i].canonicalUrl
  {
    if g == [] then [] else AllUrls(g[..|g| - 1]) + [g[|g| - 1].canonicalUrl]
  }

  /** The one document for a group with the same text: the first, carrying the sorted union of the
      group's ids and references, and of its URLs. */
  function Summary(g: seq<Document>): (d: Document)
    requires g != []
  {
    WithUrls(g[0].(sourceReferences := SortedSet(AllReferences(g))), JoinRefs(SortedSet(AllUrls(g))))
  }

  ghost predicate PlainUrls(docs: seq<Document>) { forall d :: d in docs ==> Part(d.canonicalUrl) }

  lemma SortedSetOne(x: string)
    ensures SortedSet([x]) == [x]
  {
    assert [x][1..] == [];
    assert Dedup([x]) == [x];
    assert Sort([x], StrLe) == Insert(x, Sort([], StrLe), StrLe);
  }

  lemma SummaryOne(d: Document)
    ensures Summary([d]) == Open(d)
  {
    hide SortedSet;
    assert [d][..0] == [];
    assert AllUrls([d]) == [d.canonicalUrl];
    SortedSetOne(d.canonicalUrl);
    assert AllReferences([d]) == [] + d.sourceReferences + [d.sourceId];
    assert AllReferences([d]) == d.sourceReferences + [d.sourceId];
  }

  lemma SortedSetAdd(xs: seq<string>, ys: seq<string>)
    ensures SortedSet(SortedSet(xs) + ys) == SortedSet(xs + ys)
  {
    hide SortedSet;
    SortedSetMembers(xs);
    SortedSetCanonical(SortedSet(xs) + ys, xs + ys);
  }

  lemma SummaryMore(g: seq<Document>, d: Document)
    requires g != [] && PlainUrls(g)
    ensures Summary(g + [d]) == Merge(Summary(g), d)
  {
    hide SortedSet, JoinRefs, SplitRefs, Part;
    assert (g + [d])[..|g|] == g;
    var urls := AllUrls(g);
    assert AllUrls(g + [d]) == urls + [d.canonicalUrl];
    SortedSetMembers(urls);
    PartsOf(g, urls);
    SplitJoined(SortedSet(urls));
    SortedSetAdd(urls, [d.canonicalUrl]);
    var refs, more := AllReferences(g), d.sourceReferences + [d.sourceId];
    assert AllReferences(g + [d]) == refs + more by { assert refs + d.sourceReferences + [d.sourceId] == refs + more; }
    SortedSetAdd(refs, more);
    assert SortedSet(refs) + d.sourceReferences + [d.sourceId] == SortedSet(refs) + more;
    assert UrlsOf(Summary(g)) == JoinRefs(SortedSet(urls));
    assert Summary(g).metadata["source_urls" := JoinRefs(SortedSet(urls + [d.canonicalUrl]))]
        == g[0].metadata["source_urls" := JoinRefs(SortedSet(urls + [d.canonicalUrl]))];
  }

  lemma PartsOf(g: seq<Document>, urls: seq<string>)
    requires PlainUrls(g) && urls == AllUrls(g)
    ensures forall x :: x in SortedSet(urls) ==> Part(x)
  {
    hide SortedSet, Part;
    SortedSetMembers(urls);
    forall x | x in SortedSet(urls) ensures Part(x) {
      var i :| 0 <= i < |urls| && urls[i] == x;
      assert g[i] in g;
    }
  }

  /** Entry `r[i]` summarises its group. */
  ghost predicate EntryAt(docs: seq<Document>, r: seq<Document>, i: nat)
    requires i < |r|
  {
    Group(docs, r[i].text) != [] && r[i] == Summary(Group(docs, r[i].text))
  }

  ghost predicate Entries(docs: seq<Document>, r: seq<Document>) { forall i: nat :: i < |r| ==> EntryAt(docs, r, i) }

  ghost predicate TextsDiffer(r: seq<Document>) { forall i, j :: 0 <= i < j < |r| ==> r[i].text != r[j].text }

  ghost predicate Covers(docs: seq<Document>, r: seq<Document>) {
    forall d :: d in docs ==> exists i :: 0 <= i < |r| && r[i].text == d.text
  }

  /** The entries are the summaries of the groups, one for every text. */
  ghost predicate Summarised(docs: seq<Document>, r: seq<Document>) {
    Entries(docs, r) && TextsDiffer(r) && Covers(docs, r)
  }

  lemma {:induction false} GroupMembers(docs: seq<Document>, text: string)
    ensures forall d :: d in Group(docs, text) <==> d in docs && d.text == text
  {
    if docs != [] {
      GroupMembers(docs[..|docs| - 1], text);
      assert docs == docs[..|docs| - 1] + [docs[|docs| - 1]];
    }
  }

  lemma GroupAppend(docs: seq<Document>, d: Document, text: string)
    ensures Group(docs + [d], text) == Group(docs, text) + if d.text == text then [d] else []
  {
    assert (docs + [d])[..|docs|] == docs;
  }

  lemma SummaryText(g: seq<Document>)
    requires g != []
    ensures Summary(g).text == g[0].text && Summary(g).sourceId == g[0].sourceId
      && Summary(g).canonicalUrl == g[0].canonicalUrl
    ensures Summary(g).warnings == g[0].warnings && Summary(g).contentHash == g[0].contentHash
  {
    hide SortedSet, JoinRefs;
  }

  lemma OtherEntry(docs: seq<Document>, r: seq<Document>, d: Document, after: seq<Document>, i: nat)
    requires i < |r| && i < |after| && EntryAt(docs, r, i) && after[i] == r[i] && d.text != r[i].text
    ensures EntryAt(docs + [d], after, i)
  {
    hide Summary, Group;
    GroupAppend(docs, d, r[i].text);
    assert Group(docs, r[i].text) + [] == Group(docs, r[i].text);
  }

  lemma CoversMore(docs: seq<Document>, r: seq<Document>, d: Document, after: seq<Document>, k: nat)
    requires Covers(docs, r) && |r| <= |after| && k < |after| && after[k].text == d.text
    requires forall i :: 0 <= i < |r| ==> after[i].text == r[i].text
    ensures Covers(docs + [d], after)
  {
    forall x | x in docs + [d] ensures exists i :: 0 <= i < |after| && after[i].text == x.text {
      if x in docs {
        var i :| 0 <= i < |r| && r[i].text == x.text;
        assert after[i].text == x.text;
      }
    }
  }

  lemma EntriesMore(docs: seq<Document>, r: seq<Document>, d: Document, after: seq<Document>, k: nat)
    requires Entries(docs, r) && TextsDiffer(after) && |r| <= |after| <= |r| + 1 && k < |after|
      && (|r| < |after| ==> k == |r|)
    requires forall i :: 0 <= i < |r| && i != k ==> after[i] == r[i]
    requires after[k].text == d.text && EntryAt(docs + [d], after, k)
    ensures Entries(docs + [d], after)
  {
    hide EntryAt;
    forall i: nat | i < |after| ensures EntryAt(docs + [d], after, i) {
      if i != k {
        assert after[i].text != after[k].text;
        OtherEntry(docs, r, d, after, i);
      }
    }
  }

  lemma SummarisedNew(docs: seq<Document>, r: seq<Document>, d: Document)
    requires Summarised(docs, r) && Find(r, d.text) == |r|
    ensures Summarised(docs + [d], r + [Open(d)])
  {
    hide Find, Open, Entries, Covers, Group, Summary;
    FindFacts(r, d.text);
    MergeKeepsText(d);
    SummaryOne(d);
    NoGroup(docs, r, d.text);
    GroupAppend(docs, d, d.text);
    assert [] + [d] == [d];
    var after := r + [Open(d)];
    CoversMore(docs, r, d, after, |r|);
    EntriesMore(docs, r, d, after, |r|);
  }

  lemma {:induction false} GroupEmpty(docs: seq<Document>, text: string)
    requires forall d :: d in docs ==> d.text != text
    ensures Group(docs, text) == []
  {
    if docs != [] {
      assert docs[|docs| - 1] in docs;
      GroupEmpty(docs[..|docs| - 1], text);
    }
  }

  lemma NoGroup(docs: seq<Document>, r: seq<Document>, text: string)
    requires Covers(docs, r) && forall i :: 0 <= i < |r| ==> r[i].text != text
    ensures Group(docs, text) == []
  {
    hide Group;
    GroupEmpty(docs, text);
  }

  lemma SummarisedMerge(docs: seq<Document>, r: seq<Document>, d: Document)
    requires Summarised(docs, r) && PlainUrls(docs) && Find(r, d.text) < |r|
    ensures var k := Find(r, d.text); Summarised(docs + [d], r[k := Merge(r[k], d)])
  {
    hide Find, Merge, Covers, Group, Entries, Summary;
    FindFacts(r, d.text);
    var k := Find(r, d.text);
    MergeKeeps(r[k], d);
    MergedEntry(docs, r, d, k);
    var after := r[k := Merge(r[k], d)];
    CoversMore(docs, r, d, after, k);
    EntriesMore(docs, r, d, after, k);
  }

  lemma MergedEntry(docs: seq<Document>, r: seq<Document>, d: Document, k: nat)
    requires Entries(docs, r) && PlainUrls(docs) && k < |r| && r[k].text == d.text
    ensures EntryAt(docs + [d], r[k := Merge(r[k], d)], k)
  {
    hide Merge, Summary, Group, Part;
    assert EntryAt(docs, r, k);
    MergeKeeps(r[k], d);
    GroupMembers(docs, d.text);
    SummaryMore(Group(docs, d.text), d);
    GroupAppend(docs, d, d.text);
  }

  lemma NothingSummarised()
    ensures Summarised([], [])
  {
  }

  lemma {:induction false} FoldSummarises(docs: seq<Document>)
    requires PlainUrls(docs)
    ensures Summarised(docs, Fold(docs))
  {
    hide Summary, Group, Find, Merge, Open, Summarised, Part;
    if docs == [] {
      NothingSummarised();
    } else {
      var n := |docs| - 1;
      assert docs == docs[..n] + [docs[n]];
      assert PlainUrls(docs[..n]);
      FoldSummarises(docs[..n]);
      if Find(Fold(docs[..n]), docs[n].text) == |Fold(docs[..n])| {
        SummarisedNew(docs[..n], Fold(docs[..n]), docs[n]);
      } else {
        SummarisedMerge(docs[..n], Fold(docs[..n]), docs[n]);
      }
    }
  }

  // ----- the promises about the result -----

  function Sources(docs: seq<Document>, rules: Rules): (r: seq<Document>) { Sort(PrepareAll(docs, rules), BySource) }

  lemma BySourceOrder()
    ensures TotalPreorder(BySource)
  {
    StrLeOrder();
    forall x: Document, y: Document ensures BySource(x, y) || BySource(y, x) {}
    forall x: Document, y: Document, z: Document | BySource(x, y) && BySource(y, z) ensures BySource(x, z) {}
  }

  lemma SourcesAre(docs: seq<Document>, rules: Rules)
    ensures forall p :: p in Sources(docs, rules) <==> exists d :: d in docs && p == Prepare(d, rules)
    ensures Sorted(Sources(docs, rules), BySource)
  {
    hide Prepare, Sort;
    BySourceOrder();
    SortMembers(PrepareAll(docs, rules), BySource);
    SortSorted(PrepareAll(docs, rules), BySource);
    var prepared := PrepareAll(docs, rules);
    forall p ensures p in prepared <==> exists d :: d in docs && p == Prepare(d, rules) {
      if p in prepared {
        var i :| 0 <= i < |prepared| && prepared[i] == p;
        assert docs[i] in docs;
      }
      if exists d :: d in docs && p == Prepare(d, rules) {
        var d :| d in docs && p == Prepare(d, rules);
        var i :| 0 <= i < |docs| && docs[i] == d;
        assert prepared[i] in prepared;
      }
    }
  }

  lemma SourcesPlain(docs: seq<Document>, rules: Rules)
    requires PlainUrls(docs)
    ensures PlainUrls(Sources(docs, rules))
  {
    hide Sources, SortedSet, Part;
    SourcesAre(docs, rules);
  }

  lemma NormalizeIs(docs: seq<Document>, rules: Rules)
    requires Normalize(docs, rules).Ok?
    ensures Normalize(docs, rules) == Ok(Sort(Fold(Sources(docs, rules)), BySource))
    ensures forall d :: d in docs ==> !rules.rejects(Prepare(d, rules))
  {
    hide Prepare, Sort, Fold;
    var prepared := PrepareAll(docs, rules);
    forall d | d in docs ensures !rules.rejects(Prepare(d, rules)) {
      var i :| 0 <= i < |docs| && docs[i] == d;
      assert !rules.rejects(prepared[i]);
    }
  }

  lemma {:induction false} AllReferencesMembers(g: seq<Document>)
    ensures forall x :: x in AllReferences(g) <==> exists d :: d in g && (x in d.sourceReferences || x == d.sourceId)
  {
    if g != [] {
      var n := |g| - 1;
      AllReferencesMembers(g[..n]);
      assert g == g[..n] + [g[n]];
    }
  }

  lemma AllUrlsMembers(g: seq<Document>)
    ensures forall x :: x in AllUrls(g) <==> exists d :: d in g && x == d.canonicalUrl
  {
    var urls := AllUrls(g);
    forall x ensures x in urls <==> exists d :: d in g && x == d.canonicalUrl {
      if x in urls {
        var i :| 0 <= i < |urls| && urls[i] == x;
        assert g[i] in g;
      }
      if exists d :: d in g && x == d.canonicalUrl {
        var d :| d in g && x == d.canonicalUrl;
        var i :| 0 <= i < |g| && g[i] == d;
        assert urls[i] == x;
      }
    }
  }

  lemma GroupLeast(docs: seq<Document>, text: string, d: Document)
    requires Sorted(docs, BySource) && d in docs && d.text == text
    ensures Group(docs, text) != [] && StrLe(Group(docs, text)[0].sourceId, d.sourceId)
    decreases |docs|
  {
    hide Sorted;
    var n := |docs| - 1;
    GroupMembers(docs, text);
    SortedInit(docs, n);
    StrLeTotal(d.sourceId, d.sourceId);
    if d in docs[..n] {
      GroupLeast(docs[..n], text, d);
    } else if Group(docs[..n], text) != [] {
      var lead := Group(docs[..n], text)[0];
      GroupMembers(docs[..n], text);
      assert lead in docs[..n];
      SortedLast(docs, lead);
    }
  }

  lemma SortedInit(docs: seq<Document>, n: nat)
    requires Sorted(docs, BySource) && n <= |docs|
    ensures Sorted(docs[..n], BySource)
  {
  }

  lemma SortedLast(docs: seq<Document>, d: Document)
    requires Sorted(docs, BySource) && docs != [] && d in docs[..|docs| - 1]
    ensures BySource(d, docs[|docs| - 1])
  {
  }

  predicate Cites(d: Document, x: string) { x in d.sourceReferences || x == d.sourceId }

  ghost predicate SomeCites(docs: seq<Document>, text: string, x: string) {
    exists d :: d in docs && d.text == text && Cites(d, x)
  }

  ghost predicate SomeLinks(docs: seq<Document>, text: string, x: string) {
    exists d :: d in docs && d.text == text && x == d.canonicalUrl
  }

  lemma SummaryUnion(g: seq<Document>, e: Document)
    requires g != [] && e == Summary(g) && forall d :: d in g ==> d.text == e.text
    ensures forall x :: x in e.sourceReferences <==> SomeCites(g, e.text, x)
    ensures Sorted(e.sourceReferences, StrLe) && Distinct(e.sourceReferences)
    ensures UrlsOf(e) == JoinRefs(SortedSet(AllUrls(g)))
    ensures forall x :: x in SortedSet(AllUrls(g)) <==> SomeLinks(g, e.text, x)
    ensures Sorted(SortedSet(AllUrls(g)), StrLe) && Distinct(SortedSet(AllUrls(g)))
  {
    hide SortedSet, Sorted, Distinct, AllReferences, AllUrls;
    AllReferencesMembers(g);
    AllUrlsMembers(g);
    SortedSetMembers(AllReferences(g));
    SortedSetMembers(AllUrls(g));
  }

  /** The prepared members of a text's group, in id order. */
  function Members(docs: seq<Document>, rules: Rules,
    text: string): (g: seq<Document>) { Group(Sources(docs, rules), text) }

  lemma PrepareKeeps(d: Document, rules: Rules)
    ensures var p := Prepare(d, rules);
      p.sourceId == d.sourceId && p.text == d.text && p.canonicalUrl == d.canonicalUrl
        && p.sourceReferences == d.sourceReferences
  {
    hide SortedSet;
  }

  lemma MembersAre(docs: seq<Document>, rules: Rules, text: string, p: Document)
    ensures p in Members(docs, rules, text) <==> exists d :: d in docs && d.text == text && p == Prepare(d, rules)
  {
    hide Prepare, Group, Sources;
    SourcesAre(docs, rules);
    GroupMembers(Sources(docs, rules), text);
    if p in Members(docs, rules, text) {
      var d :| d in docs && p == Prepare(d, rules);
      PrepareKeeps(d, rules);
    }
    if exists d :: d in docs && d.text == text && p == Prepare(d, rules) {
      var d :| d in docs && d.text == text && p == Prepare(d, rules);
      PrepareKeeps(d, rules);
    }
  }

  lemma ResultIsSummary(docs: seq<Document>, rules: Rules, e: Document)
    requires PlainUrls(docs) && Normalize(docs, rules).Ok? && e in Normalize(docs, rules).documents
    ensures Members(docs, rules, e.text) != [] && e == Summary(Members(docs, rules, e.text))
  {
    hide Sort, Fold, Sources, Normalize, Group, Summary, Part;
    var sources := Sources(docs, rules);
    NormalizeIs(docs, rules);
    SourcesPlain(docs, rules);
    SortMembers(Fold(sources), BySource);
    FoldSummarises(sources);
    var i :| 0 <= i < |Fold(sources)| && Fold(sources)[i] == e;
    assert EntryAt(sources, Fold(sources), i);
  }

  /** Each resulting document is led by the input with the least id among those with its text. */
  lemma LeastIdLeads(docs: seq<Document>, rules: Rules, e: Document)
    requires PlainUrls(docs) && Normalize(docs, rules).Ok? && e in Normalize(docs, rules).documents
    ensures exists d :: d in docs && d.sourceId == e.sourceId && d.text == e.text && d.canonicalUrl == e.canonicalUrl
    ensures forall d :: d in docs && d.text == e.text ==> StrLe(e.sourceId, d.sourceId)
  {
    hide Normalize, Summary, Members, Sorted, Prepare, Part;
    var g := Members(docs, rules, e.text);
    ResultIsSummary(docs, rules, e);
    SummaryText(g);
    assert g[0] in g;
    MembersAre(docs, rules, e.text, g[0]);
    var lead :| lead in docs && lead.text == e.text && g[0] == Prepare(lead, rules);
    PrepareKeeps(lead, rules);
    forall d | d in docs && d.text == e.text ensures StrLe(e.sourceId, d.sourceId) {
      LeadsAll(docs, rules, e.text, d);
    }
  }

  /** What preparing adds: the hash of the text, and the warning exactly when the text is prompt-like; the warnings
      come out sorted, each once, and nothing else changes. */
  lemma PrepareTells(d: Document, rules: Rules)
    ensures var p := Prepare(d, rules);
      && p.contentHash == rules.hash(d.text)
      && (forall w :: w in p.warnings <==>
            || w in d.warnings
            || (rules.promptLike(d.text) && w == "prompt-like source instructions " + "preserved as inert data"))
      && Sorted(p.warnings, StrLe) && Distinct(p.warnings)
      && p.(contentHash := d.contentHash, warnings := d.warnings) == d
  {
    hide SortedSet;
    SortedSetMembers(d.warnings + if rules.promptLike(d.text) then [PromptWarning()] else []);
  }

  /** A result is its leading input in everything but what is merged: the references, the joined URLs, the hash of
      its text and its warnings, which say that it is prompt-like exactly when it is or said so before. */
  lemma LeaderIsKept(docs: seq<Document>, rules: Rules, e: Document) returns (d: Document)
    requires PlainUrls(docs) && Normalize(docs, rules).Ok? && e in Normalize(docs, rules).documents
    ensures d in docs && forall x :: x in docs && x.text == e.text ==> StrLe(d.sourceId, x.sourceId)
    ensures e.(contentHash := d.contentHash, warnings := d.warnings, sourceReferences := d.sourceReferences,
               metadata := d.metadata) == d
    ensures e.contentHash == rules.hash(e.text)
    ensures forall w :: w in e.warnings <==> w in d.warnings || (rules.promptLike(e.text) && w == PromptWarning())
    ensures Sorted(e.warnings, StrLe) && Distinct(e.warnings)
    ensures e.metadata == d.metadata["source_urls" := UrlsOf(e)]
  {
    hide Normalize, Members, Sorted, Prepare, Part, SortedSet, JoinRefs, AllUrls, AllReferences;
    var g := Members(docs, rules, e.text);
    ResultIsSummary(docs, rules, e);
    assert g[0] in g;
    MembersAre(docs, rules, e.text, g[0]);
    d :| d in docs && d.text == e.text && g[0] == Prepare(d, rules);
    PrepareTells(d, rules);
    forall x | x in docs && x.text == e.text ensures StrLe(d.sourceId, x.sourceId) { LeadsAll(docs, rules, e.text, x); }
  }

  predicate FirstRejected(docs: seq<Document>, rules: Rules, i: nat)
    requires i < |docs|
  {
    rules.rejects(Prepare(docs[i], rules)) && forall k :: 0 <= k < i ==> !rules.rejects(Prepare(docs[k], rules))
  }

  /** The boundary check decides alone whether there is a result, and the first document it refuses is blamed. */
  lemma RefusedExactly(docs: seq<Document>, rules: Rules)
    ensures Normalize(docs, rules).Ok? <==> forall i :: 0 <= i < |docs| ==> !rules.rejects(Prepare(docs[i], rules))
    ensures forall i :: 0 <= i < |docs| && FirstRejected(docs, rules, i) ==>
      Normalize(docs, rules) == Refused(docs[i].sourceId)
  {
    hide Prepare, Sort, Fold;
    var prepared := PrepareAll(docs, rules);
    var k := FirstRefused(prepared, rules);
    if k < |docs| { PrepareKeeps(docs[k], rules); }
  }

  lemma LeadsAll(docs: seq<Document>, rules: Rules, text: string, d: Document)
    requires d in docs && d.text == text
    ensures Members(docs, rules, text) != [] && StrLe(Members(docs, rules, text)[0].sourceId, d.sourceId)
  {
    hide Prepare, Group, Sources, Sorted;
    SourcesAre(docs, rules);
    PrepareKeeps(d, rules);
    assert Prepare(d, rules) in Sources(docs, rules);
    GroupLeast(Sources(docs, rules), text, Prepare(d, rules));
  }

  /** It carries exactly the union of the references and ids of the inputs with its text, and of their
      URLs, each sorted and without repetition. */
  lemma EachResultIsTheUnion(docs: seq<Document>, rules: Rules, e: Document)
    requires PlainUrls(docs) && Normalize(docs, rules).Ok? && e in Normalize(docs, rules).documents
    ensures forall x :: x in e.sourceReferences <==> SomeCites(docs, e.text, x)
    ensures Sorted(e.sourceReferences, StrLe) && Distinct(e.sourceReferences)
    ensures exists urls :: (
      && UrlsOf(e) == JoinRefs(urls) && Sorted(urls, StrLe) && Distinct(urls)
      && (forall x :: x in urls <==> SomeLinks(docs, e.text, x)))
  {
    hide *;
    var g := Members(docs, rules, e.text);
    ResultIsSummary(docs, rules, e);
    MembersHaveText(docs, rules, e.text);
    SummaryUnion(g, e);
    forall x ensures SomeCites(g, e.text, x) <==> SomeCites(docs, e.text, x) { CitedBy(docs, rules, e.text, x); }
    var urls := SortedSet(AllUrls(g));
    forall x ensures SomeLinks(g, e.text, x) <==> SomeLinks(docs, e.text, x) { LinkedBy(docs, rules, e.text, x); }
  }

  lemma MembersHaveText(docs: seq<Document>, rules: Rules, text: string)
    ensures forall p :: p in Members(docs, rules, text) ==> p.text == text
  {
    hide Sources;
    GroupMembers(Sources(docs, rules), text);
  }

  lemma CitedBy(docs: seq<Document>, rules: Rules, text: string, x: string)
    ensures SomeCites(Members(docs, rules, text), text, x) <==> SomeCites(docs, text, x)
  {
    hide Members, Prepare;
    if p :| p in Members(docs, rules, text) && p.text == text && Cites(p, x) {
      MembersAre(docs, rules, text, p);
      var d :| d in docs && d.text == text && p == Prepare(d, rules);
      PrepareKeeps(d, rules);
      assert Cites(d, x);
    }
    if d :| d in docs && d.text == text && Cites(d, x) {
      MembersAre(docs, rules, text, Prepare(d, rules));
      PrepareKeeps(d, rules);
      assert Cites(Prepare(d, rules), x);
    }
  }

  lemma LinkedBy(docs: seq<Document>, rules: Rules, text: string, x: string)
    ensures SomeLinks(Members(docs, rules, text), text, x) <==> SomeLinks(docs, text, x)
  {
    hide Members, Prepare;
    if p :| p in Members(docs, rules, text) && p.text == text && x == p.canonicalUrl {
      MembersAre(docs, rules, text, p);
      var d :| d in docs && d.text == text && p == Prepare(d, rules);
      PrepareKeeps(d, rules);
    }
    if d :| d in docs && d.text == text && x == d.canonicalUrl {
      MembersAre(docs, rules, text, Prepare(d, rules));
      PrepareKeeps(d, rules);
    }
  }

  /** One document per distinct text, in id order. */
  lemma OneResultPerText(docs: seq<Document>, rules: Rules)
    requires PlainUrls(docs) && Normalize(docs, rules).Ok?
    ensures var r := Normalize(docs, rules).documents;
      && Sorted(r, BySource)
      && (forall i, j :: 0 <= i < j < |r| ==> r[i].text != r[j].text)
      && (forall d :: d in docs ==> exists e :: e in r && e.text == d.text)
  {
    hide Sort, Fold, Sources, Normalize, Entries, Prepare, Sorted, Part;
    var sources := Sources(docs, rules);
    var entries := Fold(sources);
    NormalizeIs(docs, rules);
    SourcesPlain(docs, rules);
    SourcesAre(docs, rules);
    FoldSummarises(sources);
    BySourceOrder();
    SortSorted(entries, BySource);
    SortMultiset(entries, BySource);
    SortMembers(entries, BySource);
    TextsStillDiffer(entries, Sort(entries, BySource));
    forall d | d in docs ensures exists e :: e in Sort(entries, BySource) && e.text == d.text {
      PrepareKeeps(d, rules);
      assert Prepare(d, rules) in sources;
      var i :| 0 <= i < |entries| && entries[i].text == d.text;
      assert entries[i] in Sort(entries, BySource);
    }
  }

  lemma TextsStillDiffer(a: seq<Document>, b: seq<Document>)
    requires multiset(a) == multiset(b) && TextsDiffer(a)
    ensures TextsDiffer(b)
  {
    MultisetMembers(a, b);
    DistinctFromTexts(a);
    PermutationDistinct(a, b);
    forall i, j | 0 <= i < j < |b| ensures b[i].text != b[j].text {
      assert b[i] in a && b[j] in a && b[i] != b[j];
      var k :| 0 <= k < |a| && a[k] == b[i];
      var l :| 0 <= l < |a| && a[l] == b[j];
    }
  }

  lemma DistinctFromTexts(a: seq<Document>)
    requires TextsDiffer(a)
    ensures Distinct(a)
  {
  }

  ghost predicate DistinctIds(docs: seq<Document>) { forall i, j :: 0 <= i < j < |docs| ==>
    docs[i].sourceId != docs[j].sourceId }

  /** For different source ids the result does not depend on the order of the input. */
  lemma NormalizeIgnoresOrder(a: seq<Document>, b: seq<Document>, rules: Rules)
    requires multiset(a) == multiset(b) && DistinctIds(a)
    requires Normalize(a, rules).Ok?
    ensures Normalize(b, rules) == Normalize(a, rules)
  {
    hide Prepare, Sort, Fold;
    var p, q := PrepareAll(a, rules), PrepareAll(b, rules);
    PreparedMultiset(a, b, rules);
    MultisetMembers(a, b);
    NormalizeIs(a, rules);
    BySourceOrder();
    PreparedNoTies(a, rules);
    SortPermutation(p, q, BySource);
    NothingRefused(b, rules);
  }

  lemma NothingRefused(docs: seq<Document>, rules: Rules)
    requires forall d :: d in docs ==> !rules.rejects(Prepare(d, rules))
    ensures FirstRefused(PrepareAll(docs, rules), rules) == |docs|
  {
    hide Prepare;
    var prepared := PrepareAll(docs, rules);
    forall i | 0 <= i < |docs| ensures !rules.rejects(prepared[i]) { assert docs[i] in docs; }
  }

  lemma {:induction false} PreparedRemove(docs: seq<Document>, i: nat, rules: Rules)
    requires i < |docs|
    ensures multiset(PrepareAll(docs, rules)) ==
      multiset(PrepareAll(docs[..i] + docs[i + 1..], rules)) + multiset{Prepare(docs[i], rules)}
  {
    hide Prepare;
    var p := PrepareAll(docs, rules);
    RemoveAtMultiset(p, i);
    assert PrepareAll(docs[..i] + docs[i + 1..], rules) == p[..i] + p[i + 1..];
    assert p[i] in multiset(p);
  }

  lemma PreparedFirst(a: seq<Document>, rules: Rules)
    requires a != []
    ensures multiset(PrepareAll(a, rules)) == multiset(PrepareAll(a[1..], rules)) + multiset{Prepare(a[0], rules)}
  {
    hide *;
    PreparedRemove(a, 0, rules);
    assert a[..0] + a[1..] == a[1..];
  }

  lemma {:induction false} PreparedMultiset(a: seq<Document>, b: seq<Document>, rules: Rules)
    requires multiset(a) == multiset(b)
    ensures multiset(PrepareAll(a, rules)) == multiset(PrepareAll(b, rules))
  {
    hide *;
    if a == [] {
      MultisetMembers(a, b);
      assert b == [];
    } else {
      var i := MatchFirst(a, b);
      PreparedFirst(a, rules);
      PreparedRemove(b, i, rules);
      PreparedMultiset(a[1..], b[..i] + b[i + 1..], rules);
    }
  }

  lemma PreparedNoTies(a: seq<Document>, rules: Rules)
    requires DistinctIds(a)
    ensures NoTies(PrepareAll(a, rules), BySource)
  {
    hide Prepare;
    var p := PrepareAll(a, rules);
    forall x, y | x in p && y in p && BySource(x, y) && BySource(y, x) ensures x == y {
      var i :| 0 <= i < |p| && p[i] == x;
      var j :| 0 <= j < |p| && p[j] == y;
      StrLeAntisymmetric(x.sourceId, y.sourceId);
      PrepareKeeps(a[i], rules);
      PrepareKeeps(a[j], rules);
      assert i == j;
    }
  }

  // ----- normalising again -----

  function Reset(d: Document): (r: Document) { WithUrls(d, d.canonicalUrl) }

  function ResetAll(docs: seq<Document>): (r: seq<Document>)
    ensures |r| == |docs| && forall i :: 0 <= i < |docs| ==> r[i] == Reset(docs[i])
  {
    if docs == [] then [] else ResetAll(docs[..|docs| - 1]) + [Reset(docs[|docs| - 1])]
  }

  /** The references are sorted, without repetition, and hold the document's own id. */
  predicate CitesItself(d: Document) { SortedSet(d.sourceReferences + [d.sourceId]) == d.sourceReferences }

  /** What a first pass leaves: prepared documents, one per text, in order, citing themselves. */
  ghost predicate Settled(docs: seq<Document>, rules: Rules) {
    && Sorted(docs, BySource) && TextsDiffer(docs)
    && (forall d :: d in docs ==> Prepare(d, rules) == d && CitesItself(d))
  }

  lemma FindNone(values: seq<Document>, text: string)
    requires forall i :: 0 <= i < |values| ==> values[i].text != text
    ensures Find(values, text) == |values|
  {
    hide Find;
    FindFacts(values, text);
  }

  lemma ResetAllLast(docs: seq<Document>)
    requires docs != []
    ensures ResetAll(docs) == ResetAll(docs[..|docs| - 1]) + [Reset(docs[|docs| - 1])]
  {
    hide Reset;
  }

  lemma TextsDifferInit(docs: seq<Document>)
    requires TextsDiffer(docs) && docs != []
    ensures TextsDiffer(docs[..|docs| - 1])
    ensures Find(ResetAll(docs[..|docs| - 1]), docs[|docs| - 1].text) == |docs| - 1
  {
    hide Find;
    var n := |docs| - 1;
    forall i | 0 <= i < n ensures ResetAll(docs[..n])[i].text != docs[n].text { ResetText(docs[i]); }
    FindNone(ResetAll(docs[..n]), docs[n].text);
  }

  lemma {:induction false} FoldDistinct(docs: seq<Document>)
    requires TextsDiffer(docs) && forall d :: d in docs ==> CitesItself(d)
    ensures Fold(docs) == ResetAll(docs)
  {
    hide *;
    if docs == [] {
      NothingToReset();
    } else {
      var n := |docs| - 1;
      var before := docs[..n];
      assert docs == before + [docs[n]];
      TextsDifferInit(docs);
      FoldDistinct(before);
      FoldStep(before, docs[n]);
      OpenIsReset(docs[n]);
      ResetAllLast(docs);
    }
  }

  lemma NothingToReset()
    ensures Fold([]) == ResetAll([])
  {
  }

  lemma OpenIsReset(d: Document)
    requires CitesItself(d)
    ensures Open(d) == Reset(d)
  {
    hide SortedSet;
  }

  lemma ResetText(d: Document)
    ensures Reset(d).text == d.text
  {
  }

  /** Normalising settled documents only overwrites the URL lists. */
  lemma SettledPass(docs: seq<Document>, rules: Rules)
    requires Settled(docs, rules) && Normalize(docs, rules).Ok?
    ensures Normalize(docs, rules) == Ok(ResetAll(docs))
  {
    hide Sort, Fold, SortedSet, Prepare, Sorted, TextsDiffer;
    NormalizeIs(docs, rules);
    var prepared := PrepareAll(docs, rules);
    assert forall i :: 0 <= i < |docs| ==> docs[i] in docs;
    assert prepared == docs;
    BySourceOrder();
    SortOfSorted(docs, BySource);
    FoldDistinct(docs);
    ResetSorted(docs);
    SortOfSorted(ResetAll(docs), BySource);
  }

  lemma ResetSorted(docs: seq<Document>)
    requires Sorted(docs, BySource)
    ensures Sorted(ResetAll(docs), BySource)
  {
  }

  lemma ResetSettled(docs: seq<Document>, rules: Rules)
    requires Settled(docs, rules)
    ensures Settled(ResetAll(docs), rules) && ResetAll(ResetAll(docs)) == ResetAll(docs)
  {
    hide SortedSet;
    ResetSorted(docs);
    var r := ResetAll(docs);
    forall d | d in r ensures Prepare(d, rules) == d && CitesItself(d) {
      var i :| 0 <= i < |r| && r[i] == d;
      assert docs[i] in docs && Prepare(docs[i], rules) == docs[i];
    }
    forall i | 0 <= i < |docs| ensures Reset(r[i]) == r[i] {}
  }

  lemma PreparePrepared(d: Document, rules: Rules)
    ensures Prepare(Prepare(d, rules), rules) == Prepare(d, rules)
  {
    hide SortedSet;
    var extra := if rules.promptLike(d.text) then [PromptWarning()] else [];
    SortedSetMembers(d.warnings + extra);
    SortedSetCanonical(SortedSet(d.warnings + extra) + extra, d.warnings + extra);
  }

  lemma SummaryIsSettled(g: seq<Document>, rules: Rules)
    requires g != [] && Prepare(g[0], rules) == g[0]
    ensures var e := Summary(g); Prepare(e, rules) == e && CitesItself(e)
  {
    hide SortedSet, AllReferences, AllUrls, JoinRefs;
    var e := Summary(g);
    assert g[0] in g;
    AllReferencesMembers(g);
    SortedSetMembers(AllReferences(g));
    SortedSetCanonical(e.sourceReferences + [e.sourceId], AllReferences(g));
  }

  /** A first pass leaves settled documents. */
  lemma FirstPassSettles(docs: seq<Document>, rules: Rules)
    requires PlainUrls(docs) && Normalize(docs, rules).Ok?
    ensures Settled(Normalize(docs, rules).documents, rules)
  {
    hide Normalize, Summary, Members, Sorted, Prepare, SortedSet, Part;
    var r := Normalize(docs, rules).documents;
    OneResultPerText(docs, rules);
    forall e | e in r ensures Prepare(e, rules) == e && CitesItself(e) {
      ResultIsSummary(docs, rules, e);
      var g := Members(docs, rules, e.text);
      assert g[0] in g;
      MembersAre(docs, rules, e.text, g[0]);
      var d :| d in docs && g[0] == Prepare(d, rules);
      PreparePrepared(d, rules);
      SummaryIsSettled(g, rules);
    }
  }

  /** Normalising the result again changes nothing but the URL lists, which become each document's own
      URL; a third pass changes nothing at all. */
  lemma SecondAndThirdPass(docs: seq<Document>, rules: Rules)
    requires PlainUrls(docs) && Normalize(docs, rules).Ok?
    requires Normalize(Normalize(docs, rules).documents, rules).Ok?
    ensures var first := Normalize(docs, rules).documents; var second := Normalize(first, rules).documents;
      && second == ResetAll(first)
      && (Normalize(second, rules).Ok? ==> Normalize(second, rules) == Ok(second))
  {
    hide Normalize, Part, Settled;
    var first := Normalize(docs, rules).documents;
    FirstPassSettles(docs, rules);
    SettledPass(first, rules);
    ResetSettled(first, rules);
    if Normalize(ResetAll(first), rules).Ok? { SettledPass(ResetAll(first), rules); }
  }

  lemma {:induction false} JoinedOne(xs: seq<string>, x: string)
    requires xs != [] && (forall y :: y in xs ==> Part(y)) && Part(x)
    ensures JoinRefs(xs) == x <==> xs == [x]
  {
    SplitJoined(xs);
    SplitJoined([x]);
    assert JoinRefs([x]) == x;
  }

  /** A second pass leaves a document alone exactly when every document merged into it had its URL. */
  lemma ResetKeepsIff(docs: seq<Document>, rules: Rules, e: Document)
    requires PlainUrls(docs) && Normalize(docs, rules).Ok? && e in Normalize(docs, rules).documents
    ensures Reset(e) == e <==> forall d :: d in docs && d.text == e.text ==> d.canonicalUrl == e.canonicalUrl
  {
    hide Normalize, Part, Sorted, Distinct;
    EachResultIsTheUnion(docs, rules, e);
    LeastIdLeads(docs, rules, e);
    UrlsKept(docs, rules, e);
    var urls :|
      && UrlsOf(e) == JoinRefs(urls) && Sorted(urls, StrLe) && Distinct(urls)
      && (forall x :: x in urls <==> SomeLinks(docs, e.text, x));
    var lead :| lead in docs && lead.sourceId == e.sourceId && lead.text == e.text
      && lead.canonicalUrl == e.canonicalUrl;
    assert SomeLinks(docs, e.text, e.canonicalUrl);
    forall y | y in urls ensures Part(y) {
      var d :| d in docs && d.text == e.text && y == d.canonicalUrl;
    }
    JoinedOne(urls, e.canonicalUrl);
    forall d | d in docs && d.text == e.text ensures d.canonicalUrl in urls {
      assert SomeLinks(docs, e.text, d.canonicalUrl);
    }
    if forall d :: d in docs && d.text == e.text ==> d.canonicalUrl == e.canonicalUrl {
      OnlyOne(urls, e.canonicalUrl);
    }
  }

  lemma OnlyOne(xs: seq<string>, x: string)
    requires Distinct(xs) && x in xs && forall y :: y in xs ==> y == x
    ensures xs == [x]
  {
    SameMembersSameMultiset(xs, [x]);
    MultisetMembers(xs, [x]);
    assert xs[0] in xs;
  }

  lemma UrlsKept(docs: seq<Document>, rules: Rules, e: Document)
    requires PlainUrls(docs) && Normalize(docs, rules).Ok? && e in Normalize(docs, rules).documents
    ensures "source_urls" in e.metadata && (Reset(e) == e <==> UrlsOf(e) == e.canonicalUrl)
  {
    hide Normalize, Part, Members, AllReferences, AllUrls, SortedSet, JoinRefs;
    ResultIsSummary(docs, rules, e);
    assert e.metadata["source_urls" := e.metadata["source_urls"]] == e.metadata;
  }

  /** Normalising is idempotent on an input exactly when no two documents with the same text have
      different URLs. */
  lemma IdempotentIff(docs: seq<Document>, rules: Rules)
    requires PlainUrls(docs) && Normalize(docs, rules).Ok?
    requires Normalize(Normalize(docs, rules).documents, rules).Ok?
    ensures Normalize(Normalize(docs, rules).documents, rules) == Normalize(docs, rules) <==>
      forall c, d :: c in docs && d in docs && c.text == d.text ==> c.canonicalUrl == d.canonicalUrl
  {
    hide *;
    var first := Normalize(docs, rules).documents;
    SecondAndThirdPass(docs, rules);
    if ResetAll(first) == first {
      forall c, d | c in docs && d in docs && c.text == d.text ensures c.canonicalUrl == d.canonicalUrl {
        UnchangedMeansOneUrl(docs, rules, c, d);
      }
    }
    if forall c, d :: c in docs && d in docs && c.text == d.text ==> c.canonicalUrl == d.canonicalUrl {
      OneUrlMeansUnchanged(docs, rules);
    }
  }

  function Page(id: string, url: string): (d: Document) {
    Document(id, "page", url, "t", "same text", "", None, None, None, [], [], [], map[], [], map[])
  }

  lemma PagesLoad(docs: seq<Document>, rules: Rules)
    requires forall d :: !rules.rejects(d)
    ensures Normalize(docs, rules).Ok?
  {
    NothingRefused(docs, rules);
    hide Prepare, Sort, Fold, FirstRefused;
  }

  /** Two pages with one text and two URLs: merged by a first pass, changed by a second. */
  lemma TwoPagesAreNotSettled(rules: Rules)
    requires forall d :: !rules.rejects(d)
    ensures var docs := [Page("page:1", "https://a"), Page("page:2", "https://b")];
      && Normalize(docs, rules).Ok? && Normalize(Normalize(docs, rules).documents, rules).Ok?
      && Normalize(Normalize(docs, rules).documents, rules) != Normalize(docs, rules)
  {
    hide *;
    var docs := [Page("page:1", "https://a"), Page("page:2", "https://b")];
    PagesLoad(docs, rules);
    PagesLoad(Normalize(docs, rules).documents, rules);
    PagesAre();
    PagesArePlain(docs);
    IdempotentIff(docs, rules);
  }

  lemma PagesAre()
    ensures var a, b := Page("page:1", "https://a"), Page("page:2", "https://b");
      a.text == b.text && a.canonicalUrl != b.canonicalUrl && Part(a.canonicalUrl) && Part(b.canonicalUrl)
  {
    assert "https://a"[8] != "https://b"[8];
  }

  lemma PagesArePlain(docs: seq<Document>)
    requires |docs| == 2 && Part(docs[0].canonicalUrl) && Part(docs[1].canonicalUrl)
    ensures PlainUrls(docs) && docs[0] in docs && docs[1] in docs
  {
    hide Part;
  }

  lemma ResetAt(docs: seq<Document>, e: Document)
    requires ResetAll(docs) == docs && e in docs
    ensures Reset(e) == e
  {
    hide Reset;
    var i :| 0 <= i < |docs| && docs[i] == e;
  }

  lemma UnchangedMeansOneUrl(docs: seq<Document>, rules: Rules, c: Document, d: Document)
    requires PlainUrls(docs) && Normalize(docs, rules).Ok?
    requires ResetAll(Normalize(docs, rules).documents) == Normalize(docs, rules).documents
    requires c in docs && d in docs && c.text == d.text
    ensures c.canonicalUrl == d.canonicalUrl
  {
    hide *;
    OneResultPerText(docs, rules);
    var e :| e in Normalize(docs, rules).documents && e.text == c.text;
    ResetAt(Normalize(docs, rules).documents, e);
    ResetKeepsIff(docs, rules, e);
  }

  lemma OneUrlMeansUnchanged(docs: seq<Document>, rules: Rules)
    requires PlainUrls(docs) && Normalize(docs, rules).Ok?
    requires forall c, d :: c in docs && d in docs && c.text == d.text ==> c.canonicalUrl == d.canonicalUrl
    ensures ResetAll(Normalize(docs, rules).documents) == Normalize(docs, rules).documents
  {
    hide *;
    var first := Normalize(docs, rules).documents;
    forall e | e in first ensures Reset(e) == e {
      LeastIdLeads(docs, rules, e);
      ResetKeepsIff(docs, rules, e);
    }
    ResetNothing(first);
  }

  lemma ResetNothing(docs: seq<Document>)
    requires forall e :: e in docs ==> Reset(e) == e
    ensures ResetAll(docs) == docs
  {
    hide Reset;
    forall i | 0 <= i < |docs| ensures Reset(docs[i]) == docs[i] { assert docs[i] in docs; }
  }

  // ----- the corpus identity -----

  function Lines(docs: seq<Document>, serialize: Document -> string): (payload: string) {
    if docs == [] then "" else serialize(docs[0]) + "\n" + Lines(docs[1..], serialize)
  }

  /** The digest of the normalised documents, one serialised line each, and how many there are. */
  function Identity(docs: seq<Document>, rules: Rules, serialize: Document -> string,
    digest: string -> string): (id: Option<(string, nat)>) {
    var n := Normalize(docs, rules);
    if n.Refused? then None else Some((digest(Lines(n.documents, serialize)), |n.documents|))
  }

  /** The identity does not depend on the order of the documents; it may change when it is taken of a
      normalised corpus, but from there on it stays. */
  lemma IdentityIsStable(
    a: seq<Document>, b: seq<Document>, rules: Rules, serialize: Document -> string, digest: string -> string)
    requires multiset(a) == multiset(b) && DistinctIds(a) && PlainUrls(a) && Normalize(a, rules).Ok?
    ensures Identity(b, rules, serialize, digest) == Identity(a, rules, serialize, digest)
    ensures var first := Normalize(a, rules).documents;
      Normalize(first, rules).Ok? && Normalize(Normalize(first, rules).documents, rules).Ok? ==>
        Identity(Normalize(first, rules).documents, rules, serialize, digest) ==
          Identity(first, rules, serialize, digest)
  {
    hide Normalize, DistinctIds, PlainUrls, Lines;
    NormalizeIgnoresOrder(a, b, rules);
    var first := Normalize(a, rules).documents;
    if Normalize(first, rules).Ok? { SecondAndThirdPass(a, rules); }
  }

  ghost predicate OneLineEach(serialize: Document -> string) {
    && (forall d :: '\n' !in serialize(d))
    && (forall c, d :: serialize(c) == serialize(d) ==> c == d)
  }

  lemma FirstLine(x: string, a: string, y: string, b: string)
    requires x + "\n" + a == y + "\n" + b && '\n' !in x && '\n' !in y
    ensures x == y && a == b
  {
    var t, m, n := x + "\n" + a, |x|, |y|;
    assert t[m] == '\n' && t[n] == '\n';
    assert forall i :: 0 <= i < m ==> t[i] == x[i] && x[i] in x;
    assert forall i :: 0 <= i < n ==> t[i] == y[i] && y[i] in y;
    assert m == n;
    assert t[..m] == x && t[..n] == y && t[m + 1..] == a && t[n + 1..] == b;
  }

  lemma {:induction false} LinesTellApart(a: seq<Document>, b: seq<Document>, serialize: Document -> string)
    requires OneLineEach(serialize) && Lines(a, serialize) == Lines(b, serialize)
    ensures a == b
  {
    if a != [] && b != [] {
      FirstLine(serialize(a[0]), Lines(a[1..], serialize), serialize(b[0]), Lines(b[1..], serialize));
      LinesTellApart(a[1..], b[1..], serialize);
      assert a == [a[0]] + a[1..] && b == [b[0]] + b[1..];
    }
  }

  /** With a digest that tells texts apart, and one line for each document that tells documents apart, corpora have
      the same identity exactly when they normalise to the same documents. */
  lemma IdentityTellsCorporaApart(
    a: seq<Document>, b: seq<Document>, rules: Rules, serialize: Document -> string, digest: string -> string)
    requires OneLineEach(serialize) && forall s, t :: digest(s) == digest(t) ==> s == t
    requires Normalize(a, rules).Ok? && Normalize(b, rules).Ok?
    ensures Identity(a, rules, serialize, digest) == Identity(b, rules, serialize, digest) <==>
      Normalize(a, rules).documents == Normalize(b, rules).documents
    ensures Identity(a, rules, serialize, digest).value.1 == |Normalize(a, rules).documents|
  {
    hide Normalize, OneLineEach, Lines;
    var m, n := Normalize(a, rules).documents, Normalize(b, rules).documents;
    if digest(Lines(m, serialize)) == digest(Lines(n, serialize)) { LinesTellApart(m, n, serialize); }
  }
}
