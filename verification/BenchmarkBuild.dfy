/** Building a benchmark: selection, holdouts, providers, isolation, leakage scan. */
module BenchmarkBuild {
  import opened Options
  import opened Ordering
  import opened PyText
  import opened BenchmarkMining
  import opened BenchmarkProviders

  // ----- isolation -----

  function ThreadIds(t: Thread): (ids: seq<string>) { [t.rootId] + t.replyIds }

  function IdsOf(threads: seq<Thread>): (ids: set<string>)
    ensures forall id :: id in ids <==> exists t :: t in threads && id in ThreadIds(t)
  {
    set t, id | t in threads && id in ThreadIds(t) :: id
  }

  /** The document is none of `ids`, no child of one, and relates to none. */
  predicate Isolated(d: Document, ids: set<string>) {
    && d.sourceId !in ids
    && (d.parent.Some? ==> d.parent.value !in ids)
    && (forall r :: r in d.related ==> r !in ids)
  }

  /** The document is not that message, no child of it, and not related to it. */
  predicate Unlinked(d: Document, id: string) { d.sourceId != id && d.parent != Some(id) && id !in d.related }

  /** The document has nothing to do with any message of the threads. */
  ghost predicate Apart(d: Document, threads: seq<Thread>) {
    forall t :: t in threads ==> Unlinked(d, t.rootId) && forall id :: id in t.replyIds ==> Unlinked(d, id)
  }

  lemma IdsMean(threads: seq<Thread>, id: string)
    ensures id in IdsOf(threads) <==> exists t :: t in threads && (id == t.rootId || id in t.replyIds)
  {
    hide IdsOf;
    assert forall t: Thread :: id in ThreadIds(t) <==> id == t.rootId || id in t.replyIds;
  }

  lemma ApartIsIsolated(d: Document, threads: seq<Thread>)
    ensures Apart(d, threads) <==> Isolated(d, IdsOf(threads))
  {
    hide IdsOf, Unlinked;
    forall id ensures id in IdsOf(threads) <==> exists t :: t in threads && (id == t.rootId || id in t.replyIds) {
      IdsMean(threads, id);
    }
    assert Apart(d, threads) <==> forall id :: id in IdsOf(threads) ==> Unlinked(d, id);
    IsolatedMeans(d, IdsOf(threads));
  }

  lemma IsolatedMeans(d: Document, ids: set<string>)
    ensures Isolated(d, ids) <==> forall id :: id in ids ==> Unlinked(d, id)
  {
    if Isolated(d, ids) {
      forall id | id in ids ensures Unlinked(d, id) {}
    } else if d.sourceId in ids {
      assert !Unlinked(d, d.sourceId);
    } else if d.parent.Some? && d.parent.value in ids {
      assert !Unlinked(d, d.parent.value);
    } else {
      var r :| r in d.related && r in ids;
      assert !Unlinked(d, r);
    }
  }

  predicate BySource(a: Document, b: Document) { StrLe(a.sourceId, b.sourceId) }

  function Kept(documents: seq<Document>, ids: set<string>): (r: seq<Document>)
    ensures forall d :: d in r <==> d in documents && Isolated(d, ids)
  {
    if documents == [] then []
    else
      var last := documents[|documents| - 1];
      Kept(documents[..|documents| - 1], ids) + if Isolated(last, ids) then [last] else []
  }

  predicate AnyIn(related: seq<string>, ids: set<string>) {
    related != [] && (related[0] in ids || AnyIn(related[1..], ids))
  }

  lemma {:induction false} AnyInMeans(related: seq<string>, ids: set<string>)
    ensures AnyIn(related, ids) <==> exists r :: r in related && r in ids
  {
    if related != [] {
      AnyInMeans(related[1..], ids);
      assert related == [related[0]] + related[1..];
    }
  }

  /** The filter keeps exactly the isolated documents, sorted by source id. */
  method RemoveHoldouts(documents: seq<Document>, ids: set<string>) returns (r: seq<Document>)
    ensures r == Sort(Kept(documents, ids), BySource)
    ensures forall d :: d in r <==> d in documents && Isolated(d, ids)
  {
    var filtered: seq<Document> := [];
    for i := 0 to |documents|
      invariant filtered == Kept(documents[..i], ids)
    {
      var d := documents[i];
      assert documents[..i + 1][..i] == documents[..i];
      AnyInMeans(d.related, ids);
      if d.sourceId in ids { continue; }
      if d.parent.Some? && d.parent.value in ids { continue; }
      if AnyIn(d.related, ids) { continue; }
      filtered := filtered + [d];
    }
    assert documents[..|documents|] == documents;
    SortMembers(filtered, BySource);
    r := Sort(filtered, BySource);
  }

  // ----- the leakage scan -----

  /** Where a text came from, and the text. */
  datatype Scanned = Scanned(location: string, text: string)

  datatype ScanRules = ScanRules(fold: string -> string, marker: string -> bool)

  predicate Leaks(s: Scanned, tokens: seq<string>, rules: ScanRules) {
    rules.marker(s.text) || exists t :: t in tokens && t != "" && Contains(rules.fold(s.text), rules.fold(t))
  }

  /** A name to report: a token that some text holds, or the one that stands for markers. */
  predicate MatchedBy(t: string, values: seq<Scanned>, tokens: seq<string>, rules: ScanRules) {
    || (t in tokens && t != "" && exists s :: s in values && Contains(rules.fold(s.text), rules.fold(t)))
    || (t == "oracle-marker" && exists s :: s in values && rules.marker(s.text))
  }

  lemma MatchedNext(t: string, values: seq<Scanned>, s: Scanned, tokens: seq<string>, rules: ScanRules)
    ensures MatchedBy(t, values + [s], tokens, rules) <==>
      || MatchedBy(t, values, tokens, rules)
      || (t in tokens && t != "" && Contains(rules.fold(s.text), rules.fold(t)))
      || (t == "oracle-marker" && rules.marker(s.text))
  {
    hide Contains;
  }

  method FindTokens(s: Scanned, tokens: seq<string>, rules: ScanRules) returns (found: set<string>)
    ensures found == set t | t in tokens && t != "" && Contains(rules.fold(s.text), rules.fold(t))
  {
    found := {};
    for i := 0 to |tokens|
      invariant found == set t | t in tokens[..i] && t != "" && Contains(rules.fold(s.text), rules.fold(t))
    {
      assert tokens[..i + 1] == tokens[..i] + [tokens[i]];
      if tokens[i] != "" && Contains(rules.fold(s.text), rules.fold(tokens[i])) { found := found + {tokens[i]}; }
    }
    assert tokens[..|tokens|] == tokens;
  }

  /** Clean exactly when no scanned text holds a token or a marker; the locations are those that do. */
  method ScanLeakage(values: seq<Scanned>, tokens: seq<string>, rules: ScanRules)
    returns (clean: bool, locations: set<string>, matched: set<string>)
    ensures clean <==> forall s :: s in values ==> !Leaks(s, tokens, rules)
    ensures forall l :: l in locations <==> exists s :: s in values && s.location == l && Leaks(s, tokens, rules)
    ensures forall t :: t in matched <==> MatchedBy(t, values, tokens, rules)
  {
    locations, matched := {}, {};
    hide Contains;
    for i := 0 to |values|
      invariant forall l :: l in locations <==>
        exists s :: s in values[..i] && s.location == l && Leaks(s, tokens, rules)
      invariant locations == {} <==> forall s :: s in values[..i] ==> !Leaks(s, tokens, rules)
      invariant forall t :: t in matched <==> MatchedBy(t, values[..i], tokens, rules)
    {
      var s := values[i];
      var found := FindTokens(s, tokens, rules);
      assert found == {} <==> !exists t :: t in tokens && t != "" && Contains(rules.fold(s.text), rules.fold(t)) by {
        if t :| t in tokens && t != "" && Contains(rules.fold(s.text), rules.fold(t)) { assert t in found; }
      }
      if found != {} || rules.marker(s.text) { locations := locations + {s.location}; }
      matched := matched + found + (if rules.marker(s.text) then {"oracle-marker"} else {});
      assert forall x :: x in values[..i + 1] <==> x in values[..i] || x == s;
      assert values[..i + 1] == values[..i] + [s];
      forall t { MatchedNext(t, values[..i], s, tokens, rules); }
    }
    assert values[..|values|] == values;
    clean := locations == {};
  }

  // ----- real cases -----

  function RealId(t: Thread, rules: Rules): (id: string) { "case-" + rules.hash(t.rootId) }

  function RealCase(t: Thread, rules: Rules): (c: Case) { Case(RealId(t, rules), t.rootText, [t.rootId], false) }

  /** What is taken from the replies themselves when there is no oracle. */
  datatype Fallback = Fallback(claims: seq<string> -> seq<string>, confidence: seq<string> -> real)

  function OracleFor(t: Thread, oracles: map<string, Oracle>, fallback: Fallback): (o: Oracle) {
    if t.rootId in oracles then oracles[t.rootId]
    else Oracle(fallback.claims(t.humanReplies), [], fallback.confidence(t.humanReplies))
  }

  function RealHoldout(t: Thread, oracles: map<string, Oracle>, fallback: Fallback, rules: Rules): (h: Holdout) {
    var o := OracleFor(t, oracles, fallback);
    Holdout(RealId(t, rules), t.rootText, t.rootId, t.replyIds, t.replyIds, t.humanReplies, o.claims, o.contradictions,
            o.confidence, false)
  }

  /** Without an oracle the claims and the confidence are taken from the replies, and nothing is contradicted. */
  lemma FallbackShows(t: Thread, oracles: map<string, Oracle>, fallback: Fallback, rules: Rules)
    requires t.rootId !in oracles
    ensures var h := RealHoldout(t, oracles, fallback, rules);
      && h.claims == fallback.claims(t.humanReplies) && h.contradictions == []
      && h.confidence == fallback.confidence(t.humanReplies) && h.rawReplies == t.humanReplies
  {
  }

  method RealCaseRecords(threads: seq<Thread>, oracles: map<string, Oracle>, fallback: Fallback,
    rules: Rules)
    returns (cases: seq<Case>, holdouts: seq<Holdout>)
    ensures |cases| == |holdouts| == |threads|
    ensures forall i :: 0 <= i < |threads| ==>
      cases[i] == RealCase(threads[i], rules) && holdouts[i] == RealHoldout(threads[i], oracles, fallback, rules)
  {
    hide RealCase, RealHoldout;
    cases, holdouts := [], [];
    for i := 0 to |threads|
      invariant |cases| == |holdouts| == i
      invariant forall k :: 0 <= k < i ==>
        cases[k] == RealCase(threads[k], rules) && holdouts[k] == RealHoldout(threads[k], oracles, fallback, rules)
    {
      cases := cases + [RealCase(threads[i], rules)];
      holdouts := holdouts + [RealHoldout(threads[i], oracles, fallback, rules)];
    }
  }

  // ----- the build -----

  /** Everything the build depends on besides the threads, the documents and the settings. */
  datatype Context = Context(
    judge: Judge, shuffle: seq<Thread> -> seq<Thread>, mix: seq<Document> -> seq<Document>, natural: NaturalOrder,
    rules: Rules, scan: ScanRules, render: Document -> string, renderCase: Case -> string,
    fallback: Fallback, extra: seq<Scanned>)

  datatype Provider = Provider(hasExtractor: bool, oracles: nat -> Answer<Oracle>, generator: Option<Generator>)

  datatype Build =
    | Blocked(status: Status, usage: Usage, rejections: seq<Rejection>)
    | Built(cases: seq<Case>, documents: seq<Document>, holdouts: seq<Holdout>, heldIds: set<string>, usage: Usage,
            rejections: seq<Rejection>)

  const NO_USAGE := Usage(0, 0, 0, 0.0)

  ghost predicate Configured(config: Config) {
    config.minCases <= config.maxCases && 0.0 <= config.holdoutFraction < 1.0 && config.budgetUsd >= 0.0
  }

  /** The calls stay within the bound, and the cost exceeds the budget by at most one response's cost. */
  ghost predicate Bounded(usage: Usage, config: Config, provider: Provider) {
    && usage.providerCalls <= config.maxProviderCalls
    && (usage.costUsd <= config.budgetUsd
        || exists bill :: BillOf(bill, provider) && usage.costUsd - bill.costUsd <= config.budgetUsd)
  }

  ghost predicate BillOf(bill: Bill, provider: Provider) {
    || (exists k :: provider.oracles(k).Parsed? && provider.oracles(k).bill == bill)
    || (provider.generator.Some? && match provider.generator.value
        case Scripted(responses) => exists a :: a in responses && a.Parsed? && a.bill == bill
        case Live(answers) => exists k :: answers(k).Parsed? && answers(k).bill == bill)
  }

  /** The cases and their holdouts, index by index. */
  ghost predicate Matched(cases: seq<Case>, holdouts: seq<Holdout>) {
    |cases| == |holdouts| && forall i :: 0 <= i < |cases| ==> cases[i].caseId == holdouts[i].caseId
  }

  /** No case names a held-out root as its source. */
  ghost predicate AvoidsHeld(cases: seq<Case>, held: seq<Thread>) {
    forall c, t :: c in cases && t in held ==> t.rootId !in c.sourceIds
  }

  lemma MatchedJoin(a: seq<Case>, x: seq<Holdout>, b: seq<Case>, y: seq<Holdout>)
    requires Matched(a, x) && Matched(b, y)
    ensures Matched(a + b, x + y)
  {
  }

  lemma MatchedCut(a: seq<Case>, x: seq<Holdout>, n: nat)
    requires Matched(a, x) && n <= |a|
    ensures Matched(a[..n], x[..n])
  {
  }

  lemma AvoidsJoin(a: seq<Case>, b: seq<Case>, held: seq<Thread>)
    requires AvoidsHeld(a, held) && AvoidsHeld(b, held)
    ensures AvoidsHeld(a + b, held)
  {
  }

  lemma AvoidsCut(a: seq<Case>, n: nat, held: seq<Thread>)
    requires AvoidsHeld(a, held) && n <= |a|
    ensures AvoidsHeld(a[..n], held)
  {
  }

  lemma RealFacts(
    threads: seq<Thread>, cases: seq<Case>, holdouts: seq<Holdout>, oracles: map<string, Oracle>,
    fallback: Fallback, rules: Rules, held: seq<Thread>)
    requires |cases| == |holdouts| == |threads|
    requires forall i :: 0 <= i < |threads| ==>
      cases[i] == RealCase(threads[i], rules) && holdouts[i] == RealHoldout(threads[i], oracles, fallback, rules)
    requires forall t, h :: t in threads && h in held ==> t.rootId != h.rootId
    ensures Matched(cases, holdouts) && AvoidsHeld(cases, held)
  {
    hide RealId;
    forall c, h | c in cases && h in held ensures h.rootId !in c.sourceIds {
      var i :| 0 <= i < |cases| && cases[i] == c;
      assert threads[i] in threads;
    }
  }

  lemma MadeFacts(m: Made, documents: seq<Document>, rules: Rules, held: seq<Thread>)
    requires Paired(m, documents, rules)
    requires forall d :: d in documents ==> Isolated(d, IdsOf(held))
    ensures Matched(m.cases, m.holdouts) && AvoidsHeld(m.cases, held)
  {
    forall i | 0 <= i < |m.cases| ensures m.cases[i].caseId == m.holdouts[i].caseId {
      assert FromDocument(m.cases[i], m.holdouts[i], documents, rules);
    }
    forall c, h | c in m.cases && h in held ensures h.rootId !in c.sourceIds {
      var i :| 0 <= i < |m.cases| && m.cases[i] == c;
      MadeCaseSource(m.cases[i], m.holdouts[i], documents, rules, h, held);
    }
  }

  lemma MadeCaseSource(c: Case, x: Holdout, documents: seq<Document>, rules: Rules, h: Thread, held: seq<Thread>)
    requires FromDocument(c, x, documents, rules) && h in held
    requires forall d :: d in documents ==> Isolated(d, IdsOf(held))
    ensures h.rootId !in c.sourceIds
  {
    hide CaseId, IdsOf;
    var g, d :| d in documents && ValidateGenerated(g, d, rules).None?
      && c == MakeCase(g, d, rules) && x == MakeHoldout(g, d, rules);
    assert h.rootId in ThreadIds(h);
    assert h.rootId in IdsOf(held);
    assert d.sourceId != h.rootId;
  }

  // ----- consulting the providers -----

  ghost predicate WellTyped(provider: Provider) {
    match provider.generator
    case Some(Scripted(responses)) => forall a :: a in responses && a.Parsed? ==> a.response.sourceIds != []
    case _ => true
  }

  function Fixed(kept: seq<Answer<Generated>>): (answers: nat -> Answer<Generated>) {
    (k: nat) => if k < |kept| then kept[k] else Failed(PROVIDER_FAILED)
  }

  /** A generator that is missing fails when it is called. */
  function AnswersOf(provider: Provider, kept: seq<Answer<Generated>>): (answers: nat -> Answer<Generated>) {
    match provider.generator
    case Some(Live(answers)) => answers
    case Some(Scripted(_)) => Fixed(kept)
    case None => Fixed([])
  }

  /** The shuffle of the documents a live generator is shown. */
  ghost predicate Mixes(mix: seq<Document> -> seq<Document>) {
    forall s :: multiset(mix(s)) == multiset(s)
  }

  lemma MixMembers(mix: seq<Document> -> seq<Document>, documents: seq<Document>)
    requires Mixes(mix)
    ensures forall d :: d in mix(documents) <==> d in documents
  {
    assert multiset(mix(documents)) == multiset(documents);
    MultisetMembers(mix(documents), documents);
  }

  /** The documents to ask about, one per call. */
  function WorkOf(provider: Provider, documents: seq<Document>, config: Config, mix: seq<Document> -> seq<Document>)
    : (work: seq<Document>)
  {
    match provider.generator
    case Some(Scripted(responses)) => Firsts(KnownOf(responses, documents))
    case _ => Cycle(mix(documents), config.maxProviderCalls)
  }

  /** What the calls about them come to. */
  function RepliesOf(provider: Provider, documents: seq<Document>): (answers: nat -> Answer<Generated>) {
    match provider.generator
    case Some(Scripted(responses)) => AnswersOf(provider, Seconds(KnownOf(responses, documents)))
    case _ => AnswersOf(provider, [])
  }

  function PreparationStops(provider: Provider): (status: Option<Status>) {
    match provider.generator
    case Some(Scripted(responses)) => FirstFailure(responses)
    case _ => None
  }

  /** What preparation notes: the prepared responses about unknown documents. */
  function PreparationNotes(provider: Provider, documents: seq<Document>): (rejections: seq<Rejection>) {
    match provider.generator
    case Some(Scripted(responses)) => UnknownOf(responses, documents)
    case _ => []
  }

  method PrepareWork(provider: Provider, documents: seq<Document>, config: Config, mix: seq<Document> -> seq<Document>)
    returns (failed: Option<Status>, work: seq<Document>, kept: seq<Answer<Generated>>, rejections: seq<Rejection>)
    requires WellTyped(provider) && Mixes(mix)
    ensures forall d :: d in work ==> d in documents
    ensures forall k :: 0 <= k < |work| && AnswersOf(provider, kept)(k).Parsed? ==>
      BillOf(AnswersOf(provider, kept)(k).bill, provider)
    ensures failed == PreparationStops(provider)
    ensures failed.None? ==> work == WorkOf(provider, documents, config, mix)
    ensures failed.None? ==> AnswersOf(provider, kept) == RepliesOf(provider, documents)
    ensures failed.None? ==> rejections == PreparationNotes(provider, documents)
  {
    failed, kept, rejections := None, [], [];
    MixMembers(mix, documents);
    hide FirstFailure, KnownOf, UnknownOf;
    if provider.generator.Some? && provider.generator.value.Scripted? {
      failed, work, kept, rejections := PrepareScripted(provider.generator.value.responses, documents);
      assert Prepared(work, kept, rejections, provider.generator.value.responses, documents);
      forall k | 0 <= k < |work| ensures BillOf(Fixed(kept)(k).bill, provider) { assert kept[k] in kept; }
    } else {
      work := Cycle(mix(documents), config.maxProviderCalls);
    }
  }

  lemma OracleBounded(
    o: Outcome<map<string, Oracle>>, provider: Provider, calls: nat, config: Config)
    requires Configured(config) && Accounted(o, NO_USAGE, provider.oracles, calls, config)
    ensures Bounded(o.usage, config, provider) && (o.Returned? ==> o.usage.costUsd <= config.budgetUsd)
  {
    if o.usage.costUsd > config.budgetUsd {
      var bill := provider.oracles(calls - 1).bill;
      assert BillOf(bill, provider);
      assert o.usage.costUsd - bill.costUsd <= config.budgetUsd;
    }
  }

  lemma GeneratedBounded(
    o: Outcome<Made>, u: Usage, provider: Provider, kept: seq<Answer<Generated>>, work: seq<Document>, calls: nat,
    config: Config)
    requires Configured(config) && Bounded(u, config, provider) && u.costUsd <= config.budgetUsd && calls <= |work|
    requires forall k :: 0 <= k < |work| && AnswersOf(provider, kept)(k).Parsed? ==>
      BillOf(AnswersOf(provider, kept)(k).bill, provider)
    requires Accounted(o, u, AnswersOf(provider, kept), calls, config)
    ensures Bounded(o.usage, config, provider) && (o.Returned? ==> o.usage.costUsd <= config.budgetUsd)
  {
    hide BillOf;
    var answers := AnswersOf(provider, kept);
    hide AnswersOf;
    if o.usage.costUsd > config.budgetUsd {
      var bill := answers(calls - 1).bill;
      assert BillOf(bill, provider);
      assert o.usage.costUsd - bill.costUsd <= config.budgetUsd;
    }
  }

  /** The usage is that of some oracle calls followed by some generation calls: every parsed response of
      theirs is on it, and nothing else. */
  ghost predicate OnAccount(usage: Usage, provider: Provider) {
    exists oracles: nat, generated: nat, kept ::
      usage == Spent(Spent(NO_USAGE, provider.oracles, oracles), AnswersOf(provider, kept), generated)
  }

  lemma OnAccountIs(usage: Usage, provider: Provider, oracles: nat, generated: nat, kept: seq<Answer<Generated>>)
    requires usage == Spent(Spent(NO_USAGE, provider.oracles, oracles), AnswersOf(provider, kept), generated)
    ensures OnAccount(usage, provider)
  {
    hide AnswersOf, Spent;
  }

  lemma AccountedUsage<T, R>(o: Outcome<T>, u: Usage, answers: nat -> Answer<R>, calls: nat, config: Config)
    requires Accounted(o, u, answers, calls, config)
    ensures o.usage == Spent(u, answers, calls)
  {
    hide Spent;
  }

  lemma NoCalls<T>(u: Usage, answers: nat -> Answer<T>)
    ensures Spent(u, answers, 0) == u
  {
  }

  /** How consulting the providers ends: why it stops, if it does, the usage, the cases made, and the
      rejections to report. What a provider's error interrupts is not reported. */
  datatype Consultation = Consultation(stop: Option<Status>, usage: Usage, made: Made)

  const NOTHING_MADE := Made([], [], [])

  /** Generation of the missing cases on an account. */
  function Generation(
    missing: int, documents: seq<Document>, config: Config, provider: Provider, u: Usage,
    mix: seq<Document> -> seq<Document>, rules: Rules): (c: Consultation)
  {
    var work, answers := WorkOf(provider, documents, config, mix), RepliesOf(provider, documents);
    var end := EndAt(missing, work, answers, rules, Room(u, config), 0);
    if PreparationStops(provider).Some? then Consultation(PreparationStops(provider), u, NOTHING_MADE)
    else
      var stop, made := CallsStop(u, answers, config, end), MadeAt(missing, work, answers, rules, end);
      Consultation(stop, Spent(u, answers, CallsMade(u, answers, config, end)),
                   if stop.Some? then NOTHING_MADE
                   else made.(rejections := PreparationNotes(provider, documents) + made.rejections))
  }

  /** The account after extraction for `n` threads. */
  function Extracted(n: nat, config: Config, provider: Provider): (u: Usage) {
    if !provider.hasExtractor then NO_USAGE
    else
      Spent(NO_USAGE, provider.oracles, CallsMade(NO_USAGE, provider.oracles, config, Allowed(n, NO_USAGE, config)))
  }

  /** Extraction for `n` threads and then, when cases are missing, generation. */
  function Consulted(
    n: nat, generate: bool, missing: int, documents: seq<Document>, config: Config, provider: Provider,
    mix: seq<Document> -> seq<Document>, rules: Rules): (c: Consultation)
  {
    var stop := ExtractionStops(n, provider.hasExtractor, config, NO_USAGE, provider.oracles);
    var u := Extracted(n, config, provider);
    if stop.Some? || !generate then Consultation(stop, u, NOTHING_MADE)
    else Generation(missing, documents, config, provider, u, mix, rules)
  }

  /** A method's outcome is that consultation. */
  predicate Ends(o: Outcome<Made>, c: Consultation) {
    Stopped(o) == c.stop && o.usage == c.usage && c.made == if o.Returned? then o.value else NOTHING_MADE
  }

  lemma EndsIs(o: Outcome<Made>, stop: Option<Status>, usage: Usage, made: Made)
    requires Stopped(o) == stop && o.usage == usage && made == if o.Returned? then o.value else NOTHING_MADE
    ensures Ends(o, Consultation(stop, usage, made))
  {
  }

  lemma EndsMeans(o: Outcome<Made>, c: Consultation)
    requires Ends(o, c)
    ensures Stopped(o) == c.stop && o.usage == c.usage && (o.Raised? <==> c.stop.Some?)
    ensures o.Raised? ==> c.stop == Some(o.status) && c.made == NOTHING_MADE
    ensures o.Returned? ==> c.made == o.value
  {
  }

  lemma ExtractedIs(n: nat, config: Config, provider: Provider, calls: nat)
    requires provider.hasExtractor ==>
      calls == CallsMade(NO_USAGE, provider.oracles, config, Allowed(n, NO_USAGE, config))
    requires !provider.hasExtractor ==> calls == 0
    ensures Extracted(n, config, provider) == Spent(NO_USAGE, provider.oracles, calls)
  {
    hide CallsMade, Allowed;
  }

  lemma GenerationIs(
    missing: int, documents: seq<Document>, config: Config, provider: Provider, u: Usage,
    mix: seq<Document> -> seq<Document>, rules: Rules)
    ensures var work, answers := WorkOf(provider, documents, config, mix), RepliesOf(provider, documents);
      var end := EndAt(missing, work, answers, rules, Room(u, config), 0);
      Generation(missing, documents, config, provider, u, mix, rules) ==
        if PreparationStops(provider).Some? then Consultation(PreparationStops(provider), u, NOTHING_MADE)
        else
          var stop, made := CallsStop(u, answers, config, end), MadeAt(missing, work, answers, rules, end);
          Consultation(stop, Spent(u, answers, CallsMade(u, answers, config, end)),
                       if stop.Some? then NOTHING_MADE
                       else made.(rejections := PreparationNotes(provider, documents) + made.rejections))
  {
    hide WorkOf, RepliesOf, EndAt, CallsStop, CallsMade, MadeAt, Spent, PreparationNotes;
  }

  lemma ConsultedIs(
    n: nat, generate: bool, missing: int, documents: seq<Document>, config: Config, provider: Provider,
    mix: seq<Document> -> seq<Document>, rules: Rules)
    ensures var stop := ExtractionStops(n, provider.hasExtractor, config, NO_USAGE, provider.oracles);
      var u := Extracted(n, config, provider);
      Consulted(n, generate, missing, documents, config, provider, mix, rules) ==
        if stop.Some? || !generate then Consultation(stop, u, NOTHING_MADE)
        else Generation(missing, documents, config, provider, u, mix, rules)
  {
    hide ExtractionStops, Extracted, Generation;
  }

  /** The two provider loops on one shared account. */
  method Consult(
    caseThreads: seq<Thread>, generate: bool, missing: int, documents: seq<Document>, config: Config,
      provider: Provider,
    mix: seq<Document> -> seq<Document>, rules: Rules)
    returns (o: Outcome<Made>, oracles: map<string, Oracle>)
    requires Configured(config) && WellTyped(provider) && Mixes(mix)
    ensures Ends(o, Consulted(|caseThreads|, generate, missing, documents, config, provider, mix, rules))
    ensures Bounded(o.usage, config, provider) && OnAccount(o.usage, provider)
    ensures o.Returned? ==> o.usage.costUsd <= config.budgetUsd && Paired(o.value, documents, rules)
    ensures o.Returned? && !generate ==> o.value.cases == []
    ensures o.Returned? ==> OwnResponses(oracles, caseThreads, provider.oracles)
  {
    hide *;
    oracles := map[];
    ConsultedIs(|caseThreads|, generate, missing, documents, config, provider, mix, rules);
    var extracted, calls := ExtractRealOracles(caseThreads, provider.hasExtractor, config, NO_USAGE, provider.oracles);
    StoppedIs(extracted);
    OracleBounded(extracted, provider, calls, config);
    AccountedUsage(extracted, NO_USAGE, provider.oracles, calls, config);
    ExtractedIs(|caseThreads|, config, provider, calls);
    NoCalls(extracted.usage, AnswersOf(provider, []));
    OnAccountIs(extracted.usage, provider, calls, 0, []);
    if extracted.Raised? {
      o := Raised(extracted.status, extracted.usage);
      StoppedIs(o);
      EndsIs(o, Stopped(o), o.usage, NOTHING_MADE);
      return;
    }
    oracles := extracted.value;
    NothingPairs(documents, rules);
    NothingIsMade();
    if !generate {
      o := Returned(NOTHING_MADE, extracted.usage);
      StoppedIs(o);
      EndsIs(o, Stopped(o), o.usage, NOTHING_MADE);
      return;
    }
    GenerationIs(missing, documents, config, provider, extracted.usage, mix, rules);
    var failed, work, kept, rejections := PrepareWork(provider, documents, config, mix);
    if failed.Some? {
      o := Raised(failed.value, extracted.usage);
      StoppedIs(o);
      EndsIs(o, Stopped(o), o.usage, NOTHING_MADE);
      return;
    }
    var made, more := GenerateCases(missing, work, documents, config, extracted.usage, AnswersOf(provider, kept),
      rules);
    StoppedIs(made);
    GeneratedBounded(made, extracted.usage, provider, kept, work, more, config);
    AccountedUsage(made, extracted.usage, AnswersOf(provider, kept), more, config);
    OnAccountIs(made.usage, provider, calls, more, kept);
    ghost var end := EndAt(missing, work, AnswersOf(provider, kept), rules, Room(extracted.usage, config), 0);
    if made.Raised? {
      EndsIs(made, Stopped(made), made.usage, NOTHING_MADE);
      return made, oracles;
    }
    PairedIgnoresRejections(made.value, rejections, documents, rules);
    o := Returned(made.value.(rejections := rejections + made.value.rejections), made.usage);
    StoppedIs(o);
    EndsIs(o, Stopped(o), o.usage, o.value);
  }

  lemma NothingIsMade()
    ensures NOTHING_MADE == Made([], [], [])
  {
  }

  lemma PairedIgnoresRejections(m: Made, rejections: seq<Rejection>, documents: seq<Document>, rules: Rules)
    requires Paired(m, documents, rules)
    ensures Paired(m.(rejections := rejections + m.rejections), documents, rules)
  {
    hide FromDocument;
  }

  // ----- what is scanned -----

  /** Everything evaluator-only that no candidate text may hold, and nothing else: the ids and human replies of
      the threads held out, the reply ids of every case, and the replies and claims of the real ones. */
  function Forbidden(held: seq<Thread>, holdouts: seq<Holdout>): (tokens: seq<string>)
    ensures forall t :: t in tokens <==>
      || (exists h :: h in held && (t == h.rootId || t in h.replyIds || t in h.humanReplies))
      || (exists h :: h in holdouts && (t in h.replyIds || (!h.generated && (t in h.rawReplies || t in h.claims))))
  {
    HeldTokens(held) + HoldoutTokens(holdouts)
  }

  function HeldTokens(held: seq<Thread>): (r: seq<string>)
    ensures forall t :: t in r <==>
      exists h :: h in held && (t == h.rootId || t in h.replyIds || t in h.humanReplies)
  {
    if held == [] then []
    else
      assert held == [held[0]] + held[1..];
      ThreadIds(held[0]) + held[0].humanReplies + HeldTokens(held[1..])
  }

  function HoldoutTokens(holdouts: seq<Holdout>): (r: seq<string>)
    ensures forall t :: t in r <==>
      exists h :: h in holdouts && (t in h.replyIds || (!h.generated && (t in h.rawReplies || t in h.claims)))
  {
    if holdouts == [] then []
    else
      assert holdouts == [holdouts[0]] + holdouts[1..];
      holdouts[0].replyIds + (if holdouts[0].generated then [] else holdouts[0].rawReplies + holdouts[0].claims)
      + HoldoutTokens(holdouts[1..])
  }

  function DocumentTexts(documents: seq<Document>, render: Document -> string): (r: seq<Scanned>)
    ensures forall s :: s in r <==> exists d :: d in documents && s == Scanned("texts", render(d))
  {
    if documents == [] then []
    else
      assert documents == [documents[0]] + documents[1..];
      [Scanned("texts", render(documents[0]))] + DocumentTexts(documents[1..], render)
  }

  function CaseTexts(cases: seq<Case>, render: Case -> string): (r: seq<Scanned>)
    ensures forall s :: s in r <==>
      exists c :: c in cases && (s == Scanned("texts", render(c)) || s == Scanned("prompts", c.question))
  {
    if cases == [] then []
    else
      assert cases == [cases[0]] + cases[1..];
      [Scanned("texts", render(cases[0])), Scanned("prompts", cases[0].question)] + CaseTexts(cases[1..], render)
  }

  /** The source text of the document is scanned before the benchmark's own records are removed. */
  predicate AtBoundary(d: Document, replyIds: set<string>, ids: set<string>) {
    && d.sourceId !in replyIds
    && (forall r :: r in d.related ==> r !in ids)
    && (d.parent.Some? ==> d.parent.value !in ids)
  }

  /** The document is no child of that message and not related to it. */
  predicate NoLink(d: Document, id: string) { d.parent != Some(id) && id !in d.related }

  /** The document is no reply of the threads, no child of a message of theirs, and relates to none. */
  ghost predicate OutsideReplies(d: Document, threads: seq<Thread>) {
    forall t :: t in threads ==>
      NoLink(d, t.rootId) && d.sourceId !in t.replyIds && forall id :: id in t.replyIds ==> NoLink(d, id)
  }

  lemma OutsideRepliesIsAtBoundary(d: Document, threads: seq<Thread>)
    ensures OutsideReplies(d, threads) <==> AtBoundary(d, ReplyIds(threads), IdsOf(threads))
  {
    hide IdsOf, NoLink;
    forall id ensures id in IdsOf(threads) <==> exists t :: t in threads && (id == t.rootId || id in t.replyIds) {
      IdsMean(threads, id);
    }
    assert OutsideReplies(d, threads) <==>
      d.sourceId !in ReplyIds(threads) && forall id :: id in IdsOf(threads) ==> NoLink(d, id);
    AtBoundaryMeans(d, ReplyIds(threads), IdsOf(threads));
  }

  lemma AtBoundaryMeans(d: Document, replyIds: set<string>, ids: set<string>)
    ensures AtBoundary(d, replyIds, ids) <==> d.sourceId !in replyIds && forall id :: id in ids ==> NoLink(d, id)
  {
    if d.parent.Some? && d.parent.value in ids {
      assert !NoLink(d, d.parent.value);
    } else if r :| r in d.related && r in ids {
      assert !NoLink(d, r);
    } else {
      forall id | id in ids ensures NoLink(d, id) {}
    }
  }

  function Boundary(documents: seq<Document>, replyIds: set<string>, ids: set<string>): (r: seq<Document>)
    ensures forall d :: d in r <==> d in documents && AtBoundary(d, replyIds, ids)
  {
    if documents == [] then []
    else
      assert documents == [documents[0]] + documents[1..];
      (if AtBoundary(documents[0], replyIds, ids) then [documents[0]] else []) + Boundary(documents[1..], replyIds, ids)
  }

  function ReplyIds(threads: seq<Thread>): (ids: set<string>)
    ensures forall id :: id in ids <==> exists t :: t in threads && id in t.replyIds
  {
    set t, id | t in threads && id in t.replyIds :: id
  }

  // ----- the whole build -----

  /** No forbidden token and no marker in the text of any document or case. */
  ghost predicate NothingLeaks(
    documents: seq<Document>, cases: seq<Case>, held: seq<Thread>, holdouts: seq<Holdout>, context: Context)
  {
    && (forall d :: d in documents ==>
      !Leaks(Scanned("texts", context.render(d)), Forbidden(held, holdouts), context.scan))
    && (forall c :: c in cases ==>
      !Leaks(Scanned("texts", context.renderCase(c)), Forbidden(held, holdouts), context.scan)
                                   && !Leaks(Scanned("prompts", c.question), Forbidden(held, holdouts), context.scan))
  }

  /** Nothing that is scanned leaks: no document of the source boundary, no case, nothing else a
      candidate can see. */
  ghost predicate Clean(
    kept: seq<Document>, threads: seq<Thread>, cases: seq<Case>, held: seq<Thread>, holdouts: seq<Holdout>,
    context: Context)
  {
    && (forall d :: d in kept && OutsideReplies(d, threads) ==>
          !Leaks(Scanned("texts", context.render(d)), Forbidden(held, holdouts), context.scan))
    && (forall c :: c in cases ==>
      !Leaks(Scanned("texts", context.renderCase(c)), Forbidden(held, holdouts), context.scan)
                                   && !Leaks(Scanned("prompts", c.question), Forbidden(held, holdouts), context.scan))
    && (forall s :: s in context.extra ==> !Leaks(s, Forbidden(held, holdouts), context.scan))
  }

  /** What an OK benchmark guarantees, given the valid threads and those of them held out. */
  ghost predicate Guaranteed(
    r: Build, valid: seq<Thread>, held: seq<Thread>, documents: seq<Document>, config: Config, context: Context)
    requires r.Built?
  {
    && config.minCases <= |r.cases| <= config.maxCases
    && Matched(r.cases, r.holdouts)
    && AvoidsHeld(r.cases, held)
    && r.heldIds == IdsOf(held)
    && (forall d :: d in r.documents <==> d in documents && Apart(d, valid))
    && Sorted(r.documents, BySource)
    && NothingLeaks(r.documents, r.cases, held, r.holdouts, context)
    && r.usage.costUsd <= config.budgetUsd
  }

  /** Scan the assembled sides and release them, or block: they are released exactly when clean. */
  method Release(
    cases: seq<Case>, holdouts: seq<Holdout>, kept: seq<Document>, selected: seq<Thread>, held: seq<Thread>,
    config: Config, context: Context, usage: Usage, rejections: seq<Rejection>)
    returns (r: Build)
    ensures r.usage == usage && r.rejections == rejections
    ensures r.Built? <==> Clean(kept, selected, cases, held, holdouts, context)
    ensures r.Built? ==> r.cases == cases && r.holdouts == holdouts && r.heldIds == IdsOf(held)
    ensures r.Built? ==> r.documents == Sort(Kept(kept, IdsOf(selected)), BySource)
    ensures r.Built? ==> forall d :: d in r.documents <==> d in kept && Isolated(d, IdsOf(selected))
    ensures r.Built? ==> NothingLeaks(r.documents, cases, held, holdouts, context)
    ensures r.Blocked? ==> r.status == LEAKAGE_DETECTED
  {
    hide *;
    var released := RemoveHoldouts(kept, IdsOf(selected));
    var boundary := Boundary(kept, ReplyIds(selected), IdsOf(selected));
    var payload := DocumentTexts(boundary, context.render) + DocumentTexts(released, context.render)
                   + CaseTexts(cases, context.renderCase);
    var clean, locations, matched := ScanLeakage(payload + context.extra, Forbidden(held, holdouts), context.scan);
    CleanMeans(payload, kept, released, selected, cases, held, holdouts, context);
    if !clean { return Blocked(LEAKAGE_DETECTED, usage, rejections); }
    r := Built(cases, released, holdouts, IdsOf(held), usage, rejections);
  }

  lemma CleanMeans(
    payload: seq<Scanned>, kept: seq<Document>, released: seq<Document>, threads: seq<Thread>, cases: seq<Case>,
    held: seq<Thread>, holdouts: seq<Holdout>, context: Context)
    requires forall d :: d in released <==> d in kept && Isolated(d, IdsOf(threads))
    requires payload == DocumentTexts(Boundary(kept, ReplyIds(threads), IdsOf(threads)), context.render)
                        + DocumentTexts(released, context.render) + CaseTexts(cases, context.renderCase)
    ensures (forall s :: s in payload + context.extra ==> !Leaks(s, Forbidden(held, holdouts), context.scan)) <==>
      Clean(kept, threads, cases, held, holdouts, context)
    ensures Clean(kept, threads, cases, held, holdouts, context) ==>
      NothingLeaks(released, cases, held, holdouts, context)
  {
    hide *;
    var tokens, boundary := Forbidden(held, holdouts), Boundary(kept, ReplyIds(threads), IdsOf(threads));
    CleanIs(kept, threads, cases, held, holdouts, context);
    NothingLeaksIs(released, cases, held, holdouts, context);
    forall d | d in released ensures d in boundary { IsolatedIsAtBoundary(d, threads); }
    ScannedAre(payload, boundary, released, cases, context);
    if forall s :: s in payload + context.extra ==> !Leaks(s, tokens, context.scan) {
      forall d | d in boundary ensures !Leaks(Scanned("texts", context.render(d)), tokens, context.scan) {
        assert Scanned("texts", context.render(d)) in payload;
      }
      forall c | c in cases
        ensures !Leaks(Scanned("texts", context.renderCase(c)), tokens, context.scan)
        ensures !Leaks(Scanned("prompts", c.question), tokens, context.scan)
      {
        assert Scanned("texts", context.renderCase(c)) in payload && Scanned("prompts", c.question) in payload;
      }
    }
  }

  lemma ScannedAre(
    payload: seq<Scanned>, boundary: seq<Document>, released: seq<Document>, cases: seq<Case>, context: Context)
    requires payload == DocumentTexts(boundary, context.render) + DocumentTexts(released, context.render)
                        + CaseTexts(cases, context.renderCase)
    requires forall d :: d in released ==> d in boundary
    ensures forall s :: s in payload <==>
      || (exists d :: d in boundary && s == Scanned("texts", context.render(d)))
      || (exists c :: c in cases &&
                      (s == Scanned("texts", context.renderCase(c)) || s == Scanned("prompts", c.question)))
  {
    hide DocumentTexts, CaseTexts;
  }

  lemma IsolatedIsAtBoundary(d: Document, threads: seq<Thread>)
    requires Isolated(d, IdsOf(threads))
    ensures AtBoundary(d, ReplyIds(threads), IdsOf(threads))
  {
    assert forall t, id :: t in threads && id in t.replyIds ==> id in ThreadIds(t);
  }

  lemma CleanIs(
    kept: seq<Document>, threads: seq<Thread>, cases: seq<Case>, held: seq<Thread>, holdouts: seq<Holdout>,
    context: Context)
    ensures Clean(kept, threads, cases, held, holdouts, context) <==>
      && (forall d :: d in Boundary(kept, ReplyIds(threads), IdsOf(threads)) ==>
            !Leaks(Scanned("texts", context.render(d)), Forbidden(held, holdouts), context.scan))
      && (forall c :: c in cases ==>
        !Leaks(Scanned("texts", context.renderCase(c)), Forbidden(held, holdouts), context.scan)
                                     && !Leaks(Scanned("prompts", c.question), Forbidden(held, holdouts), context.scan))
      && (forall s :: s in context.extra ==> !Leaks(s, Forbidden(held, holdouts), context.scan))
  {
    hide Leaks, Forbidden, AtBoundary, OutsideReplies;
    forall d | d in kept ensures OutsideReplies(d, threads) <==> AtBoundary(d, ReplyIds(threads), IdsOf(threads)) {
      OutsideRepliesIsAtBoundary(d, threads);
    }
  }

  lemma NothingLeaksIs(
    documents: seq<Document>, cases: seq<Case>, held: seq<Thread>, holdouts: seq<Holdout>, context: Context)
    ensures NothingLeaks(documents, cases, held, holdouts, context) <==>
      && (forall d :: d in documents ==>
            !Leaks(Scanned("texts", context.render(d)), Forbidden(held, holdouts), context.scan))
      && (forall c :: c in cases ==>
        !Leaks(Scanned("texts", context.renderCase(c)), Forbidden(held, holdouts), context.scan)
                                     && !Leaks(Scanned("prompts", c.question), Forbidden(held, holdouts), context.scan))
  {
    hide Leaks, Forbidden;
  }

  // ----- which builds are blocked -----

  /** The documents a case may be generated from. */
  function EligibleDocuments(documents: seq<Document>, held: seq<Thread>,
    marked: Document -> bool): (r: seq<Document>) {
    Unmarked(Sort(Kept(documents, IdsOf(held)), BySource), marked)
  }

  /** The checks before any provider is asked. */
  function Gate(n: nat, eligible: seq<Document>, config: Config, provider: Provider): (status: Option<Status>) {
    if config.holdoutFraction > 0.0 && n == config.minCases then Some(INSUFFICIENT_BENCHMARK)
    else if n < config.minCases && eligible == [] then Some(INSUFFICIENT_BENCHMARK)
    else if n > 0 && !provider.hasExtractor then Some(MISSING_PROVIDER)
    else if n < config.minCases && provider.generator.None? then Some(MISSING_PROVIDER)
    else None
  }

  lemma GateIs(n: nat, eligible: seq<Document>, config: Config, provider: Provider)
    ensures config.holdoutFraction > 0.0 && n == config.minCases ==>
      Gate(n, eligible, config, provider) == Some(INSUFFICIENT_BENCHMARK)
  {
  }

  /** How a build with `n` valid threads goes up to the leakage scan. */
  function BeforeScan(
    n: nat, eligible: seq<Document>, config: Config, provider: Provider, mix: seq<Document> -> seq<Document>,
    rules: Rules)
    : (c: Consultation)
    requires config.holdoutFraction >= 0.0 && HeldCount(n, config) <= n
  {
    if Gate(n, eligible, config, provider).Some?
    then Consultation(Gate(n, eligible, config, provider), NO_USAGE, NOTHING_MADE)
    else
      var c := Consulted(n - HeldCount(n, config), n < config.minCases, config.minCases - n, eligible, config, provider,
        mix, rules);
      if c.stop.None? && n < config.minCases && n + |c.made.cases| < config.minCases
      then c.(stop := Some(INSUFFICIENT_BENCHMARK)) else c
  }

  /** The cases of some threads, in order. */
  function RealCases(threads: seq<Thread>, rules: Rules): (cases: seq<Case>)
    ensures |cases| == |threads| && forall i :: 0 <= i < |cases| ==> cases[i] == RealCase(threads[i], rules)
  {
    seq(|threads|, i requires 0 <= i < |threads| => RealCase(threads[i], rules))
  }

  function Cut(cases: seq<Case>, n: nat): (r: seq<Case>) { if |cases| > n then cases[..n] else cases }

  /** A real case shows the thread's question and root and nothing else; its holdout has the replies, and the
      oracle's claims, contradictions and confidence. */
  ghost predicate ShowsThread(c: Case, h: Holdout, t: Thread, o: Oracle, rules: Rules) {
    && !c.generated && !h.generated && c.caseId == h.caseId == "case-" + rules.hash(t.rootId)
    && c.question == t.rootText && h.question == t.rootText && c.sourceIds == [t.rootId] && h.rootId == t.rootId
    && h.replyIds == t.replyIds && h.sourceIds == t.replyIds && h.rawReplies == t.humanReplies
    && h.claims == o.claims && h.contradictions == o.contradictions && h.confidence == o.confidence
  }

  /** Some call asked about the thread, and its answer is what the case's holdout holds. */
  ghost predicate OwnSide(
    c: Case, h: Holdout, t: Thread, asked: seq<Thread>, answers: nat -> Answer<Oracle>, rules: Rules)
  {
    exists k ::
      && 0 <= k < |asked| && asked[k] == t && answers(k).Parsed?
      && ShowsThread(c, h, t, answers(k).response, rules)
  }

  /** The assembled sides, up to the cap: first the real ones in order, each with the oracle that answered for
      its own thread, then the made ones. Call `k` of the oracle was about `asked[k]`. */
  ghost predicate Sides(
    cases: seq<Case>, holdouts: seq<Holdout>, ordered: seq<Thread>, asked: seq<Thread>,
    answers: nat -> Answer<Oracle>, made: Made, cap: nat, rules: Rules)
  {
    && multiset(asked) == multiset(ordered)
    && |cases| == |holdouts| <= |ordered| + |made.cases| && (|cases| < cap ==> |cases| == |ordered| + |made.cases|)
    && |cases| <= cap && |made.cases| == |made.holdouts|
    && (forall i :: 0 <= i < |cases| && i < |ordered| ==>
          OwnSide(cases[i], holdouts[i], ordered[i], asked, answers, rules))
    && (forall i :: |ordered| <= i < |cases| ==>
          cases[i] == made.cases[i - |ordered|] && holdouts[i] == made.holdouts[i - |ordered|])
  }

  lemma RealSide(
    t: Thread, oracles: map<string, Oracle>, asked: seq<Thread>, answers: nat -> Answer<Oracle>, fallback: Fallback,
    rules: Rules)
    requires OwnResponses(oracles, asked, answers) && DistinctRoots(asked) && t in asked
    ensures OwnSide(RealCase(t, rules), RealHoldout(t, oracles, fallback, rules), t, asked, answers, rules)
  {
    hide OwnResponses, DistinctRoots;
    var k :| 0 <= k < |asked| && asked[k] == t;
    OwnResponsesDistinct(oracles, asked, answers, k);
    assert ShowsThread(RealCase(t, rules), RealHoldout(t, oracles, fallback, rules), t, answers(k).response, rules);
  }

  lemma SidesAre(
    front: seq<Case>, sides: seq<Holdout>, ordered: seq<Thread>, asked: seq<Thread>, oracles: map<string, Oracle>,
    answers: nat -> Answer<Oracle>, made: Made, cap: nat, fallback: Fallback, rules: Rules)
    requires OwnResponses(oracles, asked, answers) && DistinctRoots(asked) && multiset(asked) == multiset(ordered)
    requires |front| == |sides| == |ordered| && |made.cases| == |made.holdouts|
    requires forall i :: 0 <= i < |ordered| ==>
      front[i] == RealCase(ordered[i], rules) && sides[i] == RealHoldout(ordered[i], oracles, fallback, rules)
    ensures var cases, holdouts := front + made.cases, sides + made.holdouts;
      if |cases| > cap then Sides(cases[..cap], holdouts[..cap], ordered, asked, answers, made, cap, rules)
      else Sides(cases, holdouts, ordered, asked, answers, made, cap, rules)
  {
    hide OwnResponses, DistinctRoots, RealCase, RealHoldout, OwnSide;
    MultisetMembers(asked, ordered);
    forall i | 0 <= i < |ordered| ensures OwnSide(front[i], sides[i], ordered[i], asked, answers, rules) {
      RealSide(ordered[i], oracles, asked, answers, fallback, rules);
    }
  }

  /** The consultation decides what becomes of the build: it is blocked where that stops, and otherwise
      assembled from the remaining threads, in order, and what was made, and released exactly when
      clean. */
  ghost predicate Follows(
    r: Build, c: Consultation, valid: seq<Thread>, held: seq<Thread>, ordered: seq<Thread>, holdouts: seq<Holdout>,
    kept: seq<Document>, config: Config, context: Context)
  {
    && r.usage == c.usage
    && (c.stop.Some? ==> r.Blocked? && r.status == c.stop.value)
    && (c.stop.None? ==>
          && multiset(ordered) + multiset(held) == multiset(valid)
          && Sorted(ordered, Naturally(context.natural))
          && var cases := Cut(RealCases(ordered, context.rules) + c.made.cases, config.maxCases);
             && Matched(cases, holdouts)
             && (r.Built? <==> Clean(kept, valid, cases, held, holdouts, context))
             && (r.Built? ==> r.cases == cases && r.holdouts == holdouts)
             && (r.Blocked? ==> r.status == LEAKAGE_DETECTED))
  }

  lemma StopFollows(
    r: Build, c: Consultation, valid: seq<Thread>, held: seq<Thread>, ordered: seq<Thread>, holdouts: seq<Holdout>,
    kept: seq<Document>, config: Config, context: Context)
    requires r.Blocked? && c.stop == Some(r.status) && r.usage == c.usage
    ensures Follows(r, c, valid, held, ordered, holdouts, kept, config, context)
  {
  }

  lemma ReleaseFollows(
    r: Build, c: Consultation, valid: seq<Thread>, selected: seq<Thread>, held: seq<Thread>, ordered: seq<Thread>,
    holdouts: seq<Holdout>, kept: seq<Document>, config: Config, context: Context)
    requires c.stop.None? && r.usage == c.usage && multiset(selected) == multiset(valid)
    requires multiset(ordered) + multiset(held) == multiset(valid) && Sorted(ordered, Naturally(context.natural))
    requires var cases := Cut(RealCases(ordered, context.rules) + c.made.cases, config.maxCases);
      && Matched(cases, holdouts)
      && (r.Built? <==> Clean(kept, selected, cases, held, holdouts, context))
      && (r.Built? ==> r.cases == cases && r.holdouts == holdouts)
      && (r.Blocked? ==> r.status == LEAKAGE_DETECTED)
    ensures Follows(r, c, valid, held, ordered, holdouts, kept, config, context)
  {
    var cases := Cut(RealCases(ordered, context.rules) + c.made.cases, config.maxCases);
    SameThreadsClean(kept, selected, valid, cases, held, holdouts, context);
    hide Clean, Matched, Cut, RealCases, Sorted, Naturally;
  }

  /** Put the real cases in order, append the generated ones, cut at the cap, and release. */
  method Assemble(
    caseThreads: seq<Thread>, held: seq<Thread>, selected: seq<Thread>, kept: seq<Document>, eligible: seq<Document>,
    made: Made, oracles: map<string, Oracle>, usage: Usage, rejections: seq<Rejection>, config: Config,
    context: Context, ghost answers: nat -> Answer<Oracle>)
    returns (r: Build, ghost ordered: seq<Thread>, ghost holdouts: seq<Holdout>)
    requires OwnResponses(oracles, caseThreads, answers) && DistinctRoots(caseThreads)
    requires TotalPreorder(context.natural) && Paired(made, eligible, context.rules)
    requires forall d :: d in eligible ==> Isolated(d, IdsOf(held))
    requires forall c, h :: c in caseThreads && h in held ==> c.rootId != h.rootId
    requires config.minCases <= config.maxCases && config.minCases <= |caseThreads| + |made.cases|
    ensures r.usage == usage && r.rejections == rejections && (r.Blocked? ==> r.status == LEAKAGE_DETECTED)
    ensures multiset(ordered) == multiset(caseThreads) && Sorted(ordered, Naturally(context.natural))
    ensures var cases := Cut(RealCases(ordered, context.rules) + made.cases, config.maxCases);
      && Matched(cases, holdouts) && AvoidsHeld(cases, held) && config.minCases <= |cases| <= config.maxCases
      && (r.Built? <==> Clean(kept, selected, cases, held, holdouts, context))
      && (r.Built? ==> r.cases == cases && r.holdouts == holdouts && r.heldIds == IdsOf(held)
                       && NothingLeaks(r.documents, cases, held, holdouts, context))
    ensures Sides(Cut(RealCases(ordered, context.rules) + made.cases, config.maxCases), holdouts, ordered, caseThreads,
      answers, made, config.maxCases, context.rules)
    ensures r.Built? ==> r.documents == Sort(Kept(kept, IdsOf(selected)), BySource)
    ensures r.Built? ==> forall d :: d in r.documents <==> d in kept && Isolated(d, IdsOf(selected))
  {
    hide *;
    var sorted := Sort(caseThreads, Naturally(context.natural));
    ordered := sorted;
    NaturallyOrder(context.natural);
    SortMultiset(caseThreads, Naturally(context.natural));
    SortSorted(caseThreads, Naturally(context.natural));
    SortMembers(caseThreads, Naturally(context.natural));
    var cases, sides := RealCaseRecords(sorted, oracles, context.fallback, context.rules);
    RealFacts(sorted, cases, sides, oracles, context.fallback, context.rules, held);
    MadeFacts(made, eligible, context.rules, held);
    MatchedMeans(made.cases, made.holdouts);
    SidesAre(cases, sides, sorted, caseThreads, oracles, answers, made, config.maxCases, context.fallback,
      context.rules);
    MatchedJoin(cases, sides, made.cases, made.holdouts);
    AvoidsJoin(cases, made.cases, held);
    assert cases == RealCases(sorted, context.rules);
    cases, sides := cases + made.cases, sides + made.holdouts;
    MatchedMeans(cases, sides);
    CutIs(cases, config.maxCases);
    if |cases| > config.maxCases {
      MatchedCut(cases, sides, config.maxCases);
      AvoidsCut(cases, config.maxCases, held);
      cases, sides := cases[..config.maxCases], sides[..config.maxCases];
    }
    holdouts := sides;
    r := Release(cases, sides, kept, selected, held, config, context, usage, rejections);
  }

  /** Mining, holding out, consulting, assembling, releasing. What comes before the scan decides whether
      there is anything to scan, and with which usage; a clean assembly is then released, any other
      blocked. */
  method BuildBenchmark(
    threads: seq<Thread>, documents: seq<Document>, config: Config, provider: Provider, context: Context,
    marked: Document -> bool)
    returns (r: Build, ghost held: seq<Thread>, ghost asked: seq<Thread>, ghost ordered: seq<Thread>,
             ghost holdouts: seq<Holdout>)
    requires Configured(config) && WellTyped(provider) && Shuffles(context.shuffle) && TotalPreorder(context.natural)
    requires DistinctRoots(threads) && Mixes(context.mix)
    ensures multiset(held) <= multiset(Valid(threads, context.judge))
    ensures |held| == HeldCount(|Valid(threads, context.judge)|, config) <= |Valid(threads, context.judge)|
    ensures forall t, h :: t in Valid(threads, context.judge) && t !in held && h in held ==>
      context.natural(t.rootId, h.rootId)
    ensures var valid := Valid(threads, context.judge);
      var c := BeforeScan(|valid|, EligibleDocuments(documents, held, marked), config, provider, context.mix,
        context.rules);
      Follows(r, c, valid, held, ordered, holdouts, Sort(Kept(documents, IdsOf(held)), BySource), config, context)
    ensures config.holdoutFraction > 0.0 && |Valid(threads, context.judge)| == config.minCases ==>
      held == [] && r.Blocked? && r.status == INSUFFICIENT_BENCHMARK && r.usage == NO_USAGE
    ensures var c := BeforeScan(|Valid(threads, context.judge)|, EligibleDocuments(documents, held, marked), config,
        provider, context.mix, context.rules);
      && r.rejections == Rejected(threads, context.judge) + c.made.rejections
      && (r.Built? ==>
            Sides(r.cases, r.holdouts, ordered, asked, provider.oracles, c.made, config.maxCases, context.rules))
    ensures Bounded(r.usage, config, provider) && OnAccount(r.usage, provider)
    ensures r.Built? ==> Guaranteed(r, Valid(threads, context.judge), held, documents, config, context)
  {
    hide *;
    var selected, rejections := MineRealCases(threads, context.judge, context.shuffle, |threads|);
    AllSelected(threads, context.judge, selected);
    ConfiguredMeans(config);
    ghost var valid := Valid(threads, context.judge);
    var (caseThreads, heldThreads) := HoldoutSplit(selected, context.natural, config.holdoutFraction, config.minCases);
    held, asked, ordered, holdouts := heldThreads, caseThreads, [], [];
    SplitFacts(selected, context.natural, config, caseThreads, heldThreads);
    SameMembers(selected, valid, caseThreads, held, context.natural);
    SplitCounts(selected, caseThreads, held, config);
    NothingSpent(config, provider);
    NoCalls(NO_USAGE, provider.oracles);
    NoCalls(NO_USAGE, AnswersOf(provider, []));
    OnAccountIs(NO_USAGE, provider, 0, 0, []);
    var kept := RemoveHoldouts(documents, IdsOf(heldThreads));
    var eligible := Unmarked(kept, marked);
    EligibleIs(documents, held, marked);
    BeforeScanIs(|selected|, eligible, config, provider, context.mix, context.rules);
    ghost var c := BeforeScan(|selected|, eligible, config, provider, context.mix, context.rules);
    var gate := Gate(|selected|, eligible, config, provider);
    GateIs(|selected|, eligible, config, provider);
    assert rejections + NOTHING_MADE.rejections == rejections by { NothingNoted(rejections); }
    if gate.Some? {
      r := Blocked(gate.value, NO_USAGE, rejections);
      StopFollows(r, c, valid, held, ordered, holdouts, kept, config, context);
      return;
    }
    var consulted, oracles :=
      Consult(caseThreads, |caseThreads| < config.minCases, config.minCases - |selected|, eligible, config, provider,
              context.mix, context.rules);
    EndsMeans(consulted, Consulted(|caseThreads|, |selected| < config.minCases, config.minCases - |selected|, eligible,
                                   config, provider, context.mix, context.rules));
    if consulted.Raised? {
      r := Blocked(consulted.status, consulted.usage, rejections);
      StopFollows(r, c, valid, held, ordered, holdouts, kept, config, context);
      return;
    }
    var made, usage := consulted.value, consulted.usage;
    rejections := rejections + made.rejections;
    if |caseThreads| + |made.cases| < config.minCases {
      r := Blocked(INSUFFICIENT_BENCHMARK, usage, rejections);
      StopFollows(r, c, valid, held, ordered, holdouts, kept, config, context);
      return;
    }
    r, ordered, holdouts :=
      Assemble(caseThreads, heldThreads, selected, kept, eligible, made, oracles, usage, rejections, config, context,
               provider.oracles);
    ReleaseFollows(r, c, valid, selected, held, ordered, holdouts, kept, config, context);
    if r.Built? { GuaranteedIs(r, selected, valid, heldThreads, documents, kept, config, context); }
  }

  lemma NothingNoted(rejections: seq<Rejection>)
    ensures rejections + NOTHING_MADE.rejections == rejections
  {
  }

  lemma SplitCounts(selected: seq<Thread>, cases: seq<Thread>, held: seq<Thread>, config: Config)
    requires Configured(config)
    requires multiset(cases) + multiset(held) == multiset(selected) && |held| == HeldCount(|selected|, config)
    ensures |cases| + |held| == |selected|
    ensures |cases| < config.minCases <==> |selected| < config.minCases
    ensures |selected| < config.minCases ==> |cases| == |selected|
    ensures config.holdoutFraction > 0.0 && |selected| == config.minCases ==> held == []
  {
    assert |multiset(cases) + multiset(held)| == |multiset(selected)|;
    assert |multiset(cases)| == |cases| && |multiset(held)| == |held| && |multiset(selected)| == |selected|;
    hide Share;
  }

  lemma EligibleIs(documents: seq<Document>, held: seq<Thread>, marked: Document -> bool)
    ensures EligibleDocuments(documents, held, marked) == Unmarked(Sort(Kept(documents, IdsOf(held)), BySource), marked)
  {
    hide Unmarked, Sort, Kept, IdsOf;
  }

  lemma BeforeScanIs(
    n: nat, eligible: seq<Document>, config: Config, provider: Provider, mix: seq<Document> -> seq<Document>,
    rules: Rules)
    requires config.holdoutFraction >= 0.0 && HeldCount(n, config) <= n
    ensures BeforeScan(n, eligible, config, provider, mix, rules) ==
      (if Gate(n, eligible, config, provider).Some?
       then Consultation(Gate(n, eligible, config, provider), NO_USAGE, NOTHING_MADE)
       else
         var c := Consulted(n - HeldCount(n, config), n < config.minCases, config.minCases - n, eligible, config,
           provider, mix, rules);
         if c.stop.None? && n < config.minCases && n + |c.made.cases| < config.minCases
         then c.(stop := Some(INSUFFICIENT_BENCHMARK)) else c)
  {
    hide Consulted, HeldCount, Gate;
  }

  /** When a build is blocked as insufficient: a holdout fraction meets exactly the least number of
      threads; or there are too few threads and no document to generate from; or, with too few threads
      and both providers at hand, the cases made do not fill the gap. A provider's own error may also
      carry that status. */
  lemma InsufficientIff(
    n: nat, eligible: seq<Document>, config: Config, provider: Provider, mix: seq<Document> -> seq<Document>,
    rules: Rules)
    requires config.holdoutFraction >= 0.0 && HeldCount(n, config) <= n
    ensures var extraction :=
        ExtractionStops(n - HeldCount(n, config), provider.hasExtractor, config, NO_USAGE, provider.oracles);
      var generation :=
        Generation(config.minCases - n, eligible, config, provider,
          Extracted(n - HeldCount(n, config), config, provider), mix, rules);
      var tooFew := n < config.minCases;
      BeforeScan(n, eligible, config, provider, mix, rules).stop == Some(INSUFFICIENT_BENCHMARK) <==>
        || (config.holdoutFraction > 0.0 && n == config.minCases)
        || (tooFew && eligible == [])
        || ((n == 0 || provider.hasExtractor) && (tooFew ==> provider.generator.Some?)
            && (|| extraction == Some(INSUFFICIENT_BENCHMARK)
                || (extraction.None? && tooFew
                    && (|| generation.stop == Some(INSUFFICIENT_BENCHMARK)
                        || (generation.stop.None? && n + |generation.made.cases| < config.minCases)))))
  {
    BeforeScanIs(n, eligible, config, provider, mix, rules);
    ConsultedIs(n - HeldCount(n, config), n < config.minCases, config.minCases - n, eligible, config, provider, mix,
      rules);
    hide Consulted, ExtractionStops, Generation, HeldCount, BeforeScan, Extracted;
  }

  /** No provider is asked, and its absence is reported, when threads need an extractor there is none of,
      or missing cases a generator, and the threads and documents would have sufficed. */
  lemma MissingProviderIff(
    n: nat, eligible: seq<Document>, config: Config, provider: Provider, mix: seq<Document> -> seq<Document>,
    rules: Rules)
    requires config.holdoutFraction >= 0.0 && HeldCount(n, config) <= n
    ensures var extractor, generator := n > 0 && !provider.hasExtractor,
        n < config.minCases && provider.generator.None?;
      var sufficient := !(config.holdoutFraction > 0.0 && n == config.minCases)
        && !(n < config.minCases && eligible == []);
      BeforeScan(n, eligible, config, provider, mix, rules) ==
        Consultation(Some(MISSING_PROVIDER), NO_USAGE, NOTHING_MADE)
        <== sufficient && (extractor || generator)
    ensures Gate(n, eligible, config, provider).None? ==> n == 0 || provider.hasExtractor
    ensures Gate(n, eligible, config, provider).None? ==>
      n >= config.minCases || (provider.generator.Some? && eligible != [])
  {
    BeforeScanIs(n, eligible, config, provider, mix, rules);
    hide Consulted, HeldCount, BeforeScan;
  }

  /** The least number of cases the settings allow, which is also the only one. */
  const MIN_CASES := 20

  function Settings(maxCases: nat, fraction: real, budget: real, calls: nat): (c: Config) {
    Config(MIN_CASES, maxCases, fraction, budget, calls)
  }

  lemma {:induction false} AllValid(threads: seq<Thread>, judge: Judge)
    requires forall t :: t in threads ==> judge(t).None?
    ensures Valid(threads, judge) == threads
  {
    if threads != [] {
      AllValid(threads[..|threads| - 1], judge);
      assert threads == threads[..|threads| - 1] + [threads[|threads| - 1]];
    }
  }

  /** Twenty substantive threads where twenty are enough: with any holdout fraction the build is refused,
      although nothing is held out; without one, and with oracles for all of them within the budget, it goes
      on to the scan. */
  lemma TwentyThreadsAreRefused(
    threads: seq<Thread>, judge: Judge, maxCases: nat, fraction: real, budget: real, calls: nat,
    eligible: seq<Document>, provider: Provider, mix: seq<Document> -> seq<Document>, rules: Rules)
    requires |threads| == MIN_CASES && (forall t :: t in threads ==> judge(t).None?)
    requires MIN_CASES <= maxCases <= 30 && 0.0 < fraction < 1.0 && calls >= MIN_CASES
    requires provider.hasExtractor
    requires forall k :: 0 <= k < MIN_CASES ==>
      Paid(NO_USAGE, provider.oracles, Settings(maxCases, 0.0, budget, calls), k)
    ensures Valid(threads, judge) == threads
    ensures HeldCount(|threads|, Settings(maxCases, fraction, budget, calls)) == 0
    ensures BeforeScan(|threads|, eligible, Settings(maxCases, fraction, budget, calls), provider, mix, rules).stop ==
      Some(INSUFFICIENT_BENCHMARK)
    ensures HeldCount(|threads|, Settings(maxCases, 0.0, budget, calls)) == 0
    ensures BeforeScan(|threads|, eligible, Settings(maxCases, 0.0, budget, calls), provider, mix, rules).stop == None
  {
    AllValid(threads, judge);
    CallsGoThrough(NO_USAGE, provider.oracles, Settings(maxCases, 0.0, budget, calls), MIN_CASES);
    hide Paid, CallsStop, Valid, Extracted, Generation;
  }

  lemma NaturallyOrder(natural: NaturalOrder)
    requires TotalPreorder(natural)
    ensures TotalPreorder(Naturally(natural))
  {
    var le := Naturally(natural);
    forall x, y ensures le(x, y) || le(y, x) { assert natural(x.rootId, y.rootId) || natural(y.rootId, x.rootId); }
    forall x, y, z | le(x, y) && le(y, z) ensures le(x, z) {
      assert natural(x.rootId, y.rootId) && natural(y.rootId, z.rootId);
    }
  }

  lemma CutIs(cases: seq<Case>, n: nat)
    ensures Cut(cases, n) == if |cases| > n then cases[..n] else cases
  {
  }

  // The scan depends on which threads there are, not on their order.
  lemma SameThreadsClean(
    kept: seq<Document>, a: seq<Thread>, b: seq<Thread>, cases: seq<Case>, held: seq<Thread>, holdouts: seq<Holdout>,
    context: Context)
    requires multiset(a) == multiset(b)
    ensures Clean(kept, a, cases, held, holdouts, context) <==> Clean(kept, b, cases, held, holdouts, context)
  {
    MultisetMembers(a, b);
    assert forall t :: t in a <==> t in b;
    assert forall d :: OutsideReplies(d, a) <==> OutsideReplies(d, b);
    hide Leaks, Forbidden, OutsideReplies;
  }

  function HeldCount(n: nat, config: Config): (k: nat)
    requires config.holdoutFraction >= 0.0
  {
    if n > 0 && config.holdoutFraction > 0.0 && Target(n, config.holdoutFraction, config.minCases) > 0
    then Target(n, config.holdoutFraction, config.minCases) else 0
  }

  function Unmarked(documents: seq<Document>, marked: Document -> bool): (r: seq<Document>)
    ensures forall d :: d in r <==> d in documents && !marked(d)
  {
    if documents == [] then []
      else (if marked(documents[0]) then [] else [documents[0]]) + Unmarked(documents[1..], marked)
  }

  function Naturally(natural: NaturalOrder): (le: (Thread, Thread) -> bool) {
    (a: Thread, b: Thread) => natural(a.rootId, b.rootId)
  }

  lemma ConfiguredMeans(config: Config)
    requires Configured(config)
    ensures config.minCases <= config.maxCases && 0.0 <= config.holdoutFraction < 1.0
  {
  }

  lemma MatchedMeans(cases: seq<Case>, holdouts: seq<Holdout>)
    requires Matched(cases, holdouts)
    ensures |cases| == |holdouts|
  {
  }

  lemma NothingSpent(config: Config, provider: Provider)
    requires Configured(config)
    ensures Bounded(NO_USAGE, config, provider)
  {
  }

  /** With no cap below the number of threads, mining picks every valid thread. */
  lemma AllSelected(threads: seq<Thread>, judge: Judge, selected: seq<Thread>)
    requires DistinctRoots(threads)
    requires |selected| == Limit(|threads|, |Valid(threads, judge)|)
      && multiset(selected) <= multiset(Valid(threads, judge))
    ensures multiset(selected) == multiset(Valid(threads, judge)) && |selected| == |Valid(threads, judge)|
    ensures DistinctRoots(selected)
  {
    var valid := Valid(threads, judge);
    RejectedHas(threads, judge);
    var rest := multiset(valid) - multiset(selected);
    assert multiset(valid) == multiset(selected) + rest;
    assert |multiset(valid)| == |valid| && |multiset(selected)| == |selected|;
    assert rest == multiset{};
    hide Valid, DistinctRoots, Rejected;
    forall t: Thread ensures multiset(selected)[t] <= multiset(threads)[t] { ValidKeeps(threads, judge, t); }
    StillDistinct(selected, threads);
  }

  lemma StillDistinct(selected: seq<Thread>, threads: seq<Thread>)
    requires DistinctRoots(threads) && forall t :: multiset(selected)[t] <= multiset(threads)[t]
    ensures DistinctRoots(selected)
  {
    hide DistinctRoots;
    forall i, j | 0 <= i < j < |selected| ensures selected[i].rootId != selected[j].rootId {
      var s, t := selected[i], selected[j];
      assert s in multiset(selected) && t in multiset(selected);
      DistinctRootsMeans(threads, t);
      assert s in threads && t in threads;
      if s.rootId == t.rootId { RepeatedMember(selected, i, j); }
    }
    DistinctRootsFrom(selected);
  }

  lemma DistinctRootsFrom(s: seq<Thread>)
    requires forall i, j :: 0 <= i < j < |s| ==> s[i].rootId != s[j].rootId
    ensures DistinctRoots(s)
  {
  }

  lemma SplitFacts(selected: seq<Thread>, natural: NaturalOrder, config: Config, cases: seq<Thread>, held: seq<Thread>)
    requires Configured(config) && DistinctRoots(selected) && TotalPreorder(natural)
    requires (cases, held) == HoldoutSplit(selected, natural, config.holdoutFraction, config.minCases)
    ensures multiset(cases) + multiset(held) == multiset(selected)
    ensures |held| == HeldCount(|selected|, config)
    ensures forall c, h :: c in cases && h in held ==> natural(c.rootId, h.rootId) && c.rootId != h.rootId
    ensures DistinctRoots(cases)
  {
    HoldoutsAreTheGreatest(selected, natural, config.holdoutFraction, config.minCases);
    hide HoldoutSplit, DistinctRoots, Target, TotalPreorder;
    forall c, h | c in cases && h in held ensures c.rootId != h.rootId {
      DistinctRootsMeans(selected, c);
      assert multiset(cases)[c] >= 1 && multiset(held)[h] >= 1;
      assert c in multiset(selected) && h in multiset(selected);
    }
    CountHeld(selected, natural, config, held);
    forall t: Thread ensures multiset(cases)[t] <= multiset(selected)[t] {}
    StillDistinct(cases, selected);
  }

  lemma CountHeld(selected: seq<Thread>, natural: NaturalOrder, config: Config, held: seq<Thread>)
    requires Configured(config)
    requires |held| == (if Target(|selected|, config.holdoutFraction, config.minCases) > 0
      then Target(|selected|, config.holdoutFraction, config.minCases) else 0)
    ensures |held| == HeldCount(|selected|, config)
  {
    if |selected| == 0 || config.holdoutFraction <= 0.0 { NoShare(selected, config.holdoutFraction, config.minCases); }
  }

  lemma SameMembers(selected: seq<Thread>, valid: seq<Thread>, cases: seq<Thread>, held: seq<Thread>,
    natural: NaturalOrder)
    requires multiset(selected) == multiset(valid) && multiset(cases) + multiset(held) == multiset(selected)
    requires forall c, h :: c in cases && h in held ==> natural(c.rootId, h.rootId)
    ensures IdsOf(selected) == IdsOf(valid)
    ensures forall t, h :: t in valid && t !in held && h in held ==> natural(t.rootId, h.rootId)
  {
    hide IdsOf;
    MultisetMembers(selected, valid);
    assert IdsOf(selected) == IdsOf(valid);
    forall t, h | t in valid && t !in held && h in held ensures natural(t.rootId, h.rootId) {
      assert t in multiset(valid) && t !in multiset(held);
      assert t in multiset(cases);
    }
  }

  lemma GuaranteedIs(
    r: Build, selected: seq<Thread>, valid: seq<Thread>, held: seq<Thread>, documents: seq<Document>,
    kept: seq<Document>, config: Config, context: Context)
    requires r.Built? && multiset(selected) == multiset(valid) && multiset(held) <= multiset(selected)
    requires config.minCases <= |r.cases| <= config.maxCases && Matched(r.cases, r.holdouts)
      && AvoidsHeld(r.cases, held)
    requires r.heldIds == IdsOf(held) && NothingLeaks(r.documents, r.cases, held, r.holdouts, context)
    requires forall d :: d in kept <==> d in documents && Isolated(d, IdsOf(held))
    requires forall d :: d in r.documents <==> d in kept && Isolated(d, IdsOf(selected))
    requires r.documents == Sort(Kept(kept, IdsOf(selected)), BySource)
    requires r.usage.costUsd <= config.budgetUsd
    ensures Guaranteed(r, valid, held, documents, config, context)
  {
    hide Matched, AvoidsHeld, NothingLeaks, Isolated, IdsOf, Apart, Kept, Sorted, Sort;
    BySourceOrder();
    SortSorted(Kept(kept, IdsOf(selected)), BySource);
    forall d ensures d in r.documents <==> d in documents && Apart(d, valid) {
      ApartIsIsolated(d, selected);
      ApartIsIsolated(d, held);
      ApartOfMore(d, selected, valid, held);
    }
  }

  lemma ApartOfMore(d: Document, selected: seq<Thread>, valid: seq<Thread>, held: seq<Thread>)
    requires multiset(selected) == multiset(valid) && multiset(held) <= multiset(selected)
    ensures Apart(d, selected) <==> Apart(d, valid)
    ensures Apart(d, selected) ==> Apart(d, held)
  {
    MultisetMembers(selected, valid);
    forall t | t in held ensures t in selected { assert t in multiset(held); assert t in multiset(selected); }
  }

  lemma BySourceOrder()
    ensures TotalPreorder(BySource)
  {
    StrLeOrder();
  }
}
