/** The two budgeted provider loops: oracle extraction, then case generation. */
module BenchmarkProviders {
  import opened Options
  import opened PyText
  import opened BenchmarkMining

  /** Tokens and cost reported with a response. */
  datatype Bill = Bill(inputTokens: nat, outputTokens: nat, costUsd: real)

  datatype Usage = Usage(providerCalls: nat, inputTokens: nat, outputTokens: nat, costUsd: real)

  datatype Status =
    | OK | MISSING_PROVIDER | INSUFFICIENT_BENCHMARK | BUDGET_EXCEEDED | PROVIDER_TIMEOUT | PROVIDER_CANCELLED
    | PROVIDER_FAILED | LEAKAGE_DETECTED

  datatype Config = Config(
    minCases: nat, maxCases: nat, holdoutFraction: real, budgetUsd: real, maxProviderCalls: nat)

  datatype Oracle = Oracle(claims: seq<string>, contradictions: seq<string>, confidence: real)

  datatype Generated = Generated(
    question: string, sourceIds: seq<string>, claims: seq<string>, contradictions: seq<string>, reference: string)

  /** What one provider call comes to: a parsed response with its bill, or an error of some kind. */
  datatype Answer<T> = Parsed(response: T, bill: Bill) | Failed(status: Status)

  /** Usage after one more call. */
  function Charge<T>(u: Usage, a: Answer<T>): (v: Usage) {
    if a.Parsed? then
      Usage(u.providerCalls + 1, u.inputTokens + a.bill.inputTokens, u.outputTokens + a.bill.outputTokens,
            u.costUsd + a.bill.costUsd)
    else u.(providerCalls := u.providerCalls + 1)
  }

  /** Usage after the first `calls` calls: every parsed response is on it, whatever became of it. */
  function Spent<T>(u: Usage, answers: nat -> Answer<T>, calls: nat): (v: Usage)
    ensures v.providerCalls == u.providerCalls + calls
  {
    if calls == 0 then u else Charge(Spent(u, answers, calls - 1), answers(calls - 1))
  }

  /** The outcome of a loop, with the usage it reports. */
  datatype Outcome<T> = Returned(value: T, usage: Usage) | Raised(status: Status, usage: Usage)

  /** What both loops promise about the usage, returned or raised, after `calls` calls of their own. */
  ghost predicate Accounted<T, R>(o: Outcome<T>, u: Usage, answers: nat -> Answer<R>, calls: nat, config: Config) {
    && o.usage == Spent(u, answers, calls)
    && (calls > 0 ==> o.usage.providerCalls <= config.maxProviderCalls)
    && (forall k :: 0 <= k < calls - 1 ==> answers(k).Parsed?)
    && (o.Returned? && u.costUsd <= config.budgetUsd ==> o.usage.costUsd <= config.budgetUsd)
    && (u.costUsd <= config.budgetUsd && o.usage.costUsd > config.budgetUsd ==>
          calls > 0 && answers(calls - 1).Parsed?
          && o.usage.costUsd - answers(calls - 1).bill.costUsd <= config.budgetUsd)
  }

  lemma SpentOne<T>(u: Usage, answers: nat -> Answer<T>, calls: nat)
    ensures Spent(u, answers, calls + 1) == Charge(Spent(u, answers, calls), answers(calls))
  {
  }

  function SumTo(f: nat -> nat, n: nat): (sum: nat) { if n == 0 then 0 else SumTo(f, n - 1) + f(n - 1) }

  function CostTo(f: nat -> real, n: nat): (sum: real) { if n == 0 then 0.0 else CostTo(f, n - 1) + f(n - 1) }

  function InputOf<T>(a: Answer<T>): (tokens: nat) { if a.Parsed? then a.bill.inputTokens else 0 }

  function OutputOf<T>(a: Answer<T>): (tokens: nat) { if a.Parsed? then a.bill.outputTokens else 0 }

  function CostOf<T>(a: Answer<T>): (cost: real) { if a.Parsed? then a.bill.costUsd else 0.0 }

  /** The account is one call for each answer, and the tokens and the cost of those that parse. */
  lemma {:induction false} SpentIsSum<T>(u: Usage, answers: nat -> Answer<T>, calls: nat)
    ensures var v := Spent(u, answers, calls);
      && v.providerCalls == u.providerCalls + calls
      && v.inputTokens == u.inputTokens + SumTo((k: nat) => InputOf(answers(k)), calls)
      && v.outputTokens == u.outputTokens + SumTo((k: nat) => OutputOf(answers(k)), calls)
      && v.costUsd == u.costUsd + CostTo((k: nat) => CostOf(answers(k)), calls)
  {
    if calls > 0 { SpentIsSum(u, answers, calls - 1); }
  }

  // ----- how far the calls go -----

  /** The call parses and leaves the account within the budget. */
  predicate Paid<T>(u: Usage, answers: nat -> Answer<T>, config: Config, k: nat) {
    answers(k).Parsed? && Spent(u, answers, k + 1).costUsd <= config.budgetUsd
  }

  /** The first of `n` calls, from the `i`th on, that fails or overdraws the account; `n` if none does. */
  function FirstUnpaid<T>(u: Usage, answers: nat -> Answer<T>, config: Config, n: nat, i: nat): (k: nat)
    requires i <= n
    ensures i <= k <= n && (k < n ==> !Paid(u, answers, config, k))
    ensures forall j :: i <= j < k ==> Paid(u, answers, config, j)
    decreases n - i
  {
    if i == n || !Paid(u, answers, config, i) then i else FirstUnpaid(u, answers, config, n, i + 1)
  }

  lemma UnpaidIs<T>(u: Usage, answers: nat -> Answer<T>, config: Config, n: nat, k: nat)
    requires k <= n && (k < n ==> !Paid(u, answers, config, k))
    requires forall j :: 0 <= j < k ==> Paid(u, answers, config, j)
    ensures FirstUnpaid(u, answers, config, n, 0) == k
  {
    hide Paid;
  }

  /** Why a loop of `n` calls stops early, if it does. */
  function CallsStop<T>(u: Usage, answers: nat -> Answer<T>, config: Config, n: nat): (status: Option<Status>) {
    var k := FirstUnpaid(u, answers, config, n, 0);
    if k == n then None else if answers(k).Failed? then Some(answers(k).status) else Some(BUDGET_EXCEEDED)
  }

  /** How many calls it makes: the one that stops it is made, too. */
  function CallsMade<T>(u: Usage, answers: nat -> Answer<T>, config: Config, n: nat): (calls: nat)
    ensures calls <= n
  {
    var k := FirstUnpaid(u, answers, config, n, 0);
    if k == n then n else k + 1
  }

  function Stopped<T>(o: Outcome<T>): (status: Option<Status>) { if o.Raised? then Some(o.status) else None }

  /** The calls still allowed, and needed for `n` threads. */
  function Allowed(n: nat, u: Usage, config: Config): (calls: nat)
    ensures calls <= n
  {
    var room := config.maxProviderCalls - u.providerCalls;
    if room <= 0 then 0 else if room < n then room else n
  }

  /** Why extraction for `n` threads stops, if it does. */
  function ExtractionStops(n: nat, hasExtractor: bool, config: Config, u: Usage, answers: nat -> Answer<Oracle>)
    : (status: Option<Status>)
  {
    if !hasExtractor then (if n == 0 then None else Some(MISSING_PROVIDER))
    else
      var stop := CallsStop(u, answers, config, Allowed(n, u, config));
      if stop.Some? then stop else if Allowed(n, u, config) < n then Some(BUDGET_EXCEEDED) else None
  }

  lemma CallsStopIs<T>(u: Usage, answers: nat -> Answer<T>, config: Config, n: nat, k: nat)
    requires k < n && !Paid(u, answers, config, k)
    requires forall j :: 0 <= j < k ==> Paid(u, answers, config, j)
    ensures CallsStop(u, answers, config, n) == Some(if answers(k).Failed? then answers(k).status else BUDGET_EXCEEDED)
    ensures CallsMade(u, answers, config, n) == k + 1
  {
    hide Paid;
    UnpaidIs(u, answers, config, n, k);
  }

  lemma CallsGoThrough<T>(u: Usage, answers: nat -> Answer<T>, config: Config, n: nat)
    requires forall j :: 0 <= j < n ==> Paid(u, answers, config, j)
    ensures CallsStop(u, answers, config, n) == None && CallsMade(u, answers, config, n) == n
  {
    hide Paid;
    UnpaidIs(u, answers, config, n, n);
  }

  lemma WentThrough<T, R>(value: T, u: Usage, answers: nat -> Answer<R>, calls: nat, config: Config)
    requires forall k :: 0 <= k < calls ==> Paid(u, answers, config, k)
    requires calls > 0 ==> Spent(u, answers, calls).providerCalls <= config.maxProviderCalls
    ensures Accounted(Returned(value, Spent(u, answers, calls)), u, answers, calls, config)
  {
    NothingSpentYet(u, answers);
    forall k | 0 <= k < calls ensures answers(k).Parsed? { assert Paid(u, answers, config, k); }
    hide Spent;
    if calls > 0 { assert Paid(u, answers, config, calls - 1) && calls - 1 + 1 == calls; }
  }

  lemma WasStopped<T, R>(status: Status, u: Usage, answers: nat -> Answer<R>, calls: nat, config: Config)
    requires forall k :: 0 <= k < calls ==> Paid(u, answers, config, k)
    requires Spent(u, answers, calls + 1).providerCalls <= config.maxProviderCalls
    ensures Accounted(Outcome<T>.Raised(status, Spent(u, answers, calls + 1)), u, answers, calls + 1, config)
  {
    SpentOne(u, answers, calls);
    NothingSpentYet(u, answers);
    forall k | 0 <= k < calls ensures answers(k).Parsed? { assert Paid(u, answers, config, k); }
    hide Spent;
    if calls > 0 { assert Paid(u, answers, config, calls - 1) && calls - 1 + 1 == calls; }
  }

  lemma NothingSpentYet<R>(u: Usage, answers: nat -> Answer<R>)
    ensures Spent(u, answers, 0) == u
  {
  }

  // The next call, and what its answer comes to.
  lemma PaidNext<R>(u: Usage, answers: nat -> Answer<R>, config: Config, i: nat)
    ensures Spent(u, answers, i + 1) == Charge(Spent(u, answers, i), answers(i))
    ensures Charge(Spent(u, answers, i), answers(i)).providerCalls == Spent(u, answers, i).providerCalls + 1
    ensures Paid(u, answers, config, i) <==>
      answers(i).Parsed? && Charge(Spent(u, answers, i), answers(i)).costUsd <= config.budgetUsd
  {
    SpentOne(u, answers, i);
    hide Spent;
  }

  // ----- oracle extraction -----

  /** Exactly the roots of the threads have a response, each that of the last call about it. */
  ghost predicate OwnResponses(responses: map<string, Oracle>, threads: seq<Thread>, answers: nat -> Answer<Oracle>) {
    && (forall id :: id in responses ==> exists k :: 0 <= k < |threads| && threads[k].rootId == id)
    && (forall k :: 0 <= k < |threads| ==> threads[k].rootId in responses)
    && (forall k :: 0 <= k < |threads| && LastAbout(threads, k) ==>
          answers(k).Parsed? && responses[threads[k].rootId] == answers(k).response)
  }

  predicate LastAbout(threads: seq<Thread>, k: nat)
    requires k < |threads|
  {
    forall j :: k < j < |threads| ==> threads[j].rootId != threads[k].rootId
  }

  lemma LastBefore(threads: seq<Thread>, t: Thread, k: nat)
    requires k < |threads| && LastAbout(threads + [t], k)
    ensures LastAbout(threads, k) && threads[k].rootId != t.rootId
  {
    var more := threads + [t];
    assert more[|threads|] == t && more[k] == threads[k];
    forall j | k < j < |threads| ensures threads[j].rootId != threads[k].rootId { assert more[j] == threads[j]; }
  }

  lemma OwnResponsesAdd(
    responses: map<string, Oracle>, threads: seq<Thread>, t: Thread, answers: nat -> Answer<Oracle>)
    requires OwnResponses(responses, threads, answers) && answers(|threads|).Parsed?
    ensures OwnResponses(responses[t.rootId := answers(|threads|).response], threads + [t], answers)
  {
    hide LastAbout;
    var more, n := threads + [t], |threads|;
    var all := responses[t.rootId := answers(n).response];
    forall id | id in all ensures exists k :: 0 <= k < |more| && more[k].rootId == id {
      if id == t.rootId {
        assert more[n].rootId == id;
      } else {
        var k :| 0 <= k < n && threads[k].rootId == id;
        assert more[k].rootId == id;
      }
    }
    forall k | 0 <= k < |more| ensures more[k].rootId in all {
      if k < n { assert more[k] == threads[k]; }
    }
    forall k | 0 <= k < |more| && LastAbout(more, k)
      ensures answers(k).Parsed? && all[more[k].rootId] == answers(k).response
    {
      if k < n {
        assert more[k] == threads[k];
        LastBefore(threads, t, k);
      }
    }
  }

  lemma NoResponses(answers: nat -> Answer<Oracle>)
    ensures OwnResponses(map[], [], answers)
  {
  }

  lemma OwnResponsesDistinct(
    responses: map<string, Oracle>, threads: seq<Thread>, answers: nat -> Answer<Oracle>, k: nat)
    requires OwnResponses(responses, threads, answers) && DistinctRoots(threads) && k < |threads|
    ensures answers(k).Parsed? && threads[k].rootId in responses
    ensures responses[threads[k].rootId] == answers(k).response
  {
    assert LastAbout(threads, k);
  }

  /** One oracle per thread, or the first error. */
  method ExtractRealOracles(
    threads: seq<Thread>, hasExtractor: bool, config: Config, initial: Usage, answers: nat -> Answer<Oracle>)
    returns (o: Outcome<map<string, Oracle>>, calls: nat)
    ensures calls <= |threads|
    ensures Accounted(o, initial, answers, calls, config)
    ensures Stopped(o) == ExtractionStops(|threads|, hasExtractor, config, initial, answers)
    ensures !hasExtractor ==> calls == 0
    ensures hasExtractor ==> calls == CallsMade(initial, answers, config, Allowed(|threads|, initial, config))
    ensures o.Returned? ==>
      && calls == (if hasExtractor then |threads| else 0)
      && (forall k :: 0 <= k < calls ==> answers(k).Parsed?)
      && (!hasExtractor ==> threads == [])
      && OwnResponses(o.value, threads, answers)
    ensures o.Raised? ==>
      || (o.status == MISSING_PROVIDER && !hasExtractor && threads != [])
      || (o.status == BUDGET_EXCEEDED && calls < |threads| && o.usage.providerCalls >= config.maxProviderCalls)
      || (calls > 0 && answers(calls - 1).Failed? && o.status == answers(calls - 1).status)
      || (calls > 0 && answers(calls - 1).Parsed? && o.status == BUDGET_EXCEEDED && o.usage.costUsd > config.budgetUsd)
  {
    hide OwnResponses;
    NoResponses(answers);
    calls := 0;
    if !hasExtractor {
      if threads != [] { return Raised(MISSING_PROVIDER, initial), 0; }
      return Returned(map[], initial), 0;
    }
    var responses: map<string, Oracle> := map[];
    var usage := initial;
    ghost var allowed := Allowed(|threads|, initial, config);
    assert threads[..0] == [];
    for i := 0 to |threads|
      invariant calls == i && usage == Spent(initial, answers, i) && i <= allowed
      invariant forall k :: 0 <= k < i ==> Paid(initial, answers, config, k)
      invariant i > 0 ==> usage.providerCalls <= config.maxProviderCalls && usage.costUsd <= config.budgetUsd
      invariant forall k :: 0 <= k < i ==> answers(k).Parsed?
      invariant OwnResponses(responses, threads[..i], answers)
    {
      assert threads[..i + 1] == threads[..i] + [threads[i]];
      SpentOne(initial, answers, i);
      if usage.providerCalls >= config.maxProviderCalls {
        CallsGoThrough(initial, answers, config, allowed);
        return Raised(BUDGET_EXCEEDED, usage), calls;
      }
      var answer := answers(i);
      usage := Charge(usage, answer);
      calls := calls + 1;
      if answer.Failed? {
        CallsStopIs(initial, answers, config, allowed, i);
        return Raised(answer.status, usage), calls;
      }
      if usage.costUsd > config.budgetUsd {
        CallsStopIs(initial, answers, config, allowed, i);
        return Raised(BUDGET_EXCEEDED, usage), calls;
      }
      OwnResponsesAdd(responses, threads[..i], threads[i], answers);
      responses := responses[threads[i].rootId := answer.response];
    }
    assert threads[..|threads|] == threads;
    CallsGoThrough(initial, answers, config, allowed);
    return Returned(responses, usage), calls;
  }

  // ----- case generation -----

  datatype Document = Document(sourceId: string, parent: Option<string>, related: seq<string>, text: string)

  datatype Case = Case(caseId: string, question: string, sourceIds: seq<string>, generated: bool)

  datatype Holdout = Holdout(
    caseId: string, question: string, rootId: string, replyIds: seq<string>, sourceIds: seq<string>,
    rawReplies: seq<string>, claims: seq<string>, contradictions: seq<string>, confidence: real, generated: bool)

  /** The text rules of validation: case folding, the words of a text, and the short hash of a string. */
  datatype Rules = Rules(fold: string -> string, words: string -> string, hash: string -> string)

  /** Why a generated response is not usable, if it is not. */
  function ValidateGenerated(g: Generated, d: Document, rules: Rules): (reason: Option<string>) {
    if !(g.sourceIds != [] && forall s :: s in g.sourceIds ==> s == d.sourceId) then
      Some("MISSING_OR_UNKNOWN_SOURCE_ID")
    else if exists c :: c in g.claims && !Contains(rules.fold(d.text), rules.fold(c)) then
      Some("UNVERIFIABLE_GENERATED_ANSWER")
    else if rules.words(g.reference) == "" || !Contains(rules.words(d.text), rules.words(g.reference))
      then Some("UNVERIFIABLE_GENERATED_ANSWER")
    else if rules.words(g.question) != "" && Contains(rules.words(d.text), rules.words(g.question))
      then Some("COPIED_SENTENCE_QUESTION")
    else None
  }

  function CaseId(g: Generated, d: Document, rules: Rules): (id: string) {
    "case-generated-" + rules.hash(d.sourceId + g.question)
  }

  function MakeCase(g: Generated, d: Document, rules: Rules): (c: Case) {
    Case(CaseId(g, d, rules), g.question, g.sourceIds, true)
  }

  function MakeHoldout(g: Generated, d: Document, rules: Rules): (h: Holdout) {
    var id := CaseId(g, d, rules);
    Holdout(id, g.question, "generated:root:" + rules.hash(id), ["generated:oracle:" + rules.hash(id)], g.sourceIds,
            [g.reference], g.claims, g.contradictions, 0.0, true)
  }

  datatype Made = Made(cases: seq<Case>, holdouts: seq<Holdout>, rejections: seq<Rejection>)

  /** A case made from a valid response about one of the documents, and its holdout. */
  ghost predicate FromDocument(c: Case, h: Holdout, documents: seq<Document>, rules: Rules) {
    exists g: Generated, d :: d in documents && ValidateGenerated(g, d, rules).None?
      && c == MakeCase(g, d, rules) && h == MakeHoldout(g, d, rules)
  }

  ghost predicate Paired(m: Made, documents: seq<Document>, rules: Rules) {
    && |m.cases| == |m.holdouts|
    && (forall i :: 0 <= i < |m.cases| ==> FromDocument(m.cases[i], m.holdouts[i], documents, rules))
    && (forall i, j :: 0 <= i < j < |m.cases| ==> rules.words(m.cases[i].question) != rules.words(m.cases[j].question))
  }

  lemma PairedAppend(m: Made, g: Generated, d: Document, documents: seq<Document>, rules: Rules)
    requires Paired(m, documents, rules) && d in documents && ValidateGenerated(g, d, rules).None?
    requires forall i :: 0 <= i < |m.cases| ==> rules.words(m.cases[i].question) != rules.words(g.question)
    ensures Paired(Made(m.cases + [MakeCase(g, d, rules)], m.holdouts + [MakeHoldout(g, d, rules)], m.rejections),
      documents, rules)
  {
    hide ValidateGenerated, CaseId;
    var c, h := MakeCase(g, d, rules), MakeHoldout(g, d, rules);
    assert FromDocument(c, h, documents, rules);
  }

  /** Why a response makes no case, if it makes none: it is not usable, or it repeats a question. */
  function RejectionOf(m: Made, d: Document, g: Generated, rules: Rules): (reason: Option<string>) {
    var reason := ValidateGenerated(g, d, rules);
    if reason.Some? then reason
    else if rules.words(g.question) in (set c | c in m.cases :: rules.words(c.question))
      then Some("DUPLICATE_GENERATED_QUESTION")
    else None
  }

  /** What one response adds: a case and its holdout, or a rejection. */
  function Take(m: Made, d: Document, a: Answer<Generated>, rules: Rules): (r: Made) {
    if a.Failed? then m
    else
      var reason := RejectionOf(m, d, a.response, rules);
      if reason.Some? then m.(rejections := m.rejections + [Rejection(d.sourceId, reason.value)])
      else
        m.(cases := m.cases + [MakeCase(a.response, d, rules)],
          holdouts := m.holdouts + [MakeHoldout(a.response, d, rules)])
  }

  /** What is made of the first `i` responses. */
  function MadeAfter(work: seq<Document>, answers: nat -> Answer<Generated>, rules: Rules, i: nat): (m: Made)
    requires i <= |work|
  {
    if i == 0 then Made([], [], [])
      else Take(MadeAfter(work, answers, rules, i - 1), work[i - 1], answers(i - 1), rules)
  }

  lemma MadeStep(work: seq<Document>, answers: nat -> Answer<Generated>, rules: Rules, i: nat)
    requires i < |work|
    ensures MadeAfter(work, answers, rules, i + 1) ==
      Take(MadeAfter(work, answers, rules, i), work[i], answers(i), rules)
  {
    hide Take;
  }

  lemma TakeIs(m: Made, d: Document, a: Answer<Generated>, rules: Rules, seen: set<string>)
    requires a.Parsed? && forall q :: q in seen <==> exists c :: c in m.cases && rules.words(c.question) == q
    ensures var r := Take(m, d, a, rules);
      var invalid := ValidateGenerated(a.response, d, rules);
      var reason :=
        if invalid.None? && rules.words(a.response.question) in seen then Some("DUPLICATE_GENERATED_QUESTION")
        else invalid;
      if reason.Some? then r == m.(rejections := m.rejections + [Rejection(d.sourceId, reason.value)])
      else r == m.(cases := m.cases + [MakeCase(a.response, d, rules)],
                   holdouts := m.holdouts + [MakeHoldout(a.response, d, rules)])
  {
    hide ValidateGenerated, CaseId;
  }

  /** How many responses are used when nothing goes wrong: until enough cases are made, or the work or
      the allowed calls run out. */
  function EndAt(missing: int, work: seq<Document>, answers: nat -> Answer<Generated>, rules: Rules, room: int,
    i: nat): (e: nat)
    requires i <= |work|
    ensures i <= e <= |work|
    decreases |work| - i
  {
    if i == |work| || |MadeAfter(work, answers, rules, i).cases| >= missing || i >= room then i
    else EndAt(missing, work, answers, rules, room, i + 1)
  }

  function Room(u: Usage, config: Config): (room: int) { config.maxProviderCalls - u.providerCalls }

  /** What the loop returns when it ends there: with work left and cases missing, the next document is noted as
      out of calls. */
  function MadeAt(missing: int, work: seq<Document>, answers: nat -> Answer<Generated>, rules: Rules, e: nat): (m: Made)
    requires e <= |work|
  {
    var m := MadeAfter(work, answers, rules, e);
    if e < |work| && |m.cases| < missing
    then m.(rejections := m.rejections + [Rejection(work[e].sourceId, "PROVIDER_CALL_LIMIT_EXHAUSTED")])
    else m
  }

  /** The generation loop over the work list; `answers(k)` is what call `k` comes to. */
  method GenerateCases(
    missing: int, work: seq<Document>, documents: seq<Document>, config: Config, initial: Usage,
    answers: nat -> Answer<Generated>, rules: Rules)
    returns (o: Outcome<Made>, calls: nat)
    requires forall d :: d in work ==> d in documents
    ensures calls <= |work|
    ensures Accounted(o, initial, answers, calls, config)
    ensures var end := EndAt(missing, work, answers, rules, Room(initial, config), 0);
      && Stopped(o) == CallsStop(initial, answers, config, end) && calls == CallsMade(initial, answers, config, end)
      && (o.Returned? ==> o.value == MadeAt(missing, work, answers, rules, end))
    ensures o.Returned? ==> Paired(o.value, documents, rules) && (missing >= 0 ==> |o.value.cases| <= missing)
    ensures o.Raised? ==>
      || (calls > 0 && answers(calls - 1).Failed? && o.status == answers(calls - 1).status)
      || (calls > 0 && answers(calls - 1).Parsed? && o.status == BUDGET_EXCEEDED && o.usage.costUsd > config.budgetUsd)
  {
    hide *;
    calls := 0;
    var usage := initial;
    var cases: seq<Case>, holdouts: seq<Holdout>, rejections: seq<Rejection> := [], [], [];
    var seen: set<string> := {};
    ghost var end := EndAt(missing, work, answers, rules, Room(initial, config), 0);
    NothingMade(work, answers, rules);
    NothingSpentYet(initial, answers);
    NothingPairs(documents, rules);
    for i := 0 to |work|
      invariant calls == i && usage == Spent(initial, answers, i)
      invariant end == EndAt(missing, work, answers, rules, Room(initial, config), i)
      invariant i > 0 ==> usage.providerCalls <= config.maxProviderCalls
      invariant forall k :: 0 <= k < i ==> Paid(initial, answers, config, k)
      invariant missing >= 0 ==> |cases| <= missing
      invariant Made(cases, holdouts, rejections) == MadeAfter(work, answers, rules, i)
      invariant Paired(Made(cases, holdouts, rejections), documents, rules)
      invariant forall q :: q in seen <==> exists c :: c in cases && rules.words(c.question) == q
    {
      EndNext(missing, work, answers, rules, initial, config, i);
      MadeAtIs(missing, work, answers, rules, i);
      if |cases| >= missing { break; }
      var d := work[i];
      if usage.providerCalls >= config.maxProviderCalls {
        var more := rejections + [Rejection(d.sourceId, "PROVIDER_CALL_LIMIT_EXHAUSTED")];
        PairedAnyway(cases, holdouts, rejections, more, documents, rules);
        rejections := more;
        break;
      }
      PaidNext(initial, answers, config, i);
      MadeStep(work, answers, rules, i);
      var answer := answers(i);
      usage := Charge(usage, answer);
      calls := calls + 1;
      if answer.Failed? {
        CallsStopIs(initial, answers, config, end, i);
        WasStopped<Made, Generated>(answer.status, initial, answers, i, config);
        o := Raised(answer.status, usage);
        StoppedIs(o);
        return;
      }
      if usage.costUsd > config.budgetUsd {
        CallsStopIs(initial, answers, config, end, i);
        WasStopped<Made, Generated>(BUDGET_EXCEEDED, initial, answers, i, config);
        o := Raised(BUDGET_EXCEEDED, usage);
        StoppedIs(o);
        return;
      }
      var g := answer.response;
      var rejection := ValidateGenerated(g, d, rules);
      var question := rules.words(g.question);
      TakeIs(Made(cases, holdouts, rejections), d, answer, rules, seen);
      if rejection.None? && question in seen { rejection := Some("DUPLICATE_GENERATED_QUESTION"); }
      if rejection.Some? {
        PairedAnyway(cases, holdouts, rejections, rejections + [Rejection(d.sourceId, rejection.value)], documents,
          rules);
        rejections := rejections + [Rejection(d.sourceId, rejection.value)];
        continue;
      }
      Unseen(cases, seen, question, rules);
      PairedAppend(Made(cases, holdouts, rejections), g, d, documents, rules);
      CaseQuestion(g, d, rules);
      seen := seen + {question};
      cases := cases + [MakeCase(g, d, rules)];
      holdouts := holdouts + [MakeHoldout(g, d, rules)];
    }
    EndNext(missing, work, answers, rules, initial, config, calls);
    MadeAtIs(missing, work, answers, rules, calls);
    CallsGoThrough(initial, answers, config, end);
    o := Returned(Made(cases, holdouts, rejections), usage);
    StoppedIs(o);
    WentThrough(o.value, initial, answers, calls, config);
  }

  lemma StoppedIs<T>(o: Outcome<T>)
    ensures Stopped(o) == if o.Raised? then Some(o.status) else None
  {
  }

  lemma NothingPairs(documents: seq<Document>, rules: Rules)
    ensures Paired(Made([], [], []), documents, rules)
  {
  }

  lemma PairedAnyway(
    cases: seq<Case>, holdouts: seq<Holdout>, a: seq<Rejection>, b: seq<Rejection>, documents: seq<Document>,
      rules: Rules)
    requires Paired(Made(cases, holdouts, a), documents, rules)
    ensures Paired(Made(cases, holdouts, b), documents, rules)
  {
    hide FromDocument;
  }

  lemma EndNext(
    missing: int, work: seq<Document>, answers: nat -> Answer<Generated>, rules: Rules, u: Usage, config: Config,
    i: nat)
    requires i <= |work|
    ensures EndAt(missing, work, answers, rules, Room(u, config), i) ==
      if i == |work| || |MadeAfter(work, answers, rules, i).cases| >= missing
        || u.providerCalls + i >= config.maxProviderCalls
      then i else EndAt(missing, work, answers, rules, Room(u, config), i + 1)
  {
    hide MadeAfter;
  }

  lemma MadeAtIs(missing: int, work: seq<Document>, answers: nat -> Answer<Generated>, rules: Rules, e: nat)
    requires e <= |work|
    ensures var m := MadeAfter(work, answers, rules, e);
      MadeAt(missing, work, answers, rules, e) ==
        if e < |work| && |m.cases| < missing
        then m.(rejections := m.rejections + [Rejection(work[e].sourceId, "PROVIDER_CALL_LIMIT_EXHAUSTED")])
        else m
  {
    hide MadeAfter;
  }

  lemma NothingMade(work: seq<Document>, answers: nat -> Answer<Generated>, rules: Rules)
    ensures MadeAfter(work, answers, rules, 0) == Made([], [], [])
  {
  }

  lemma CaseQuestion(g: Generated, d: Document, rules: Rules)
    ensures MakeCase(g, d, rules).question == g.question
  {
  }

  lemma Unseen(cases: seq<Case>, seen: set<string>, question: string, rules: Rules)
    requires forall q :: q in seen <==> exists c :: c in cases && rules.words(c.question) == q
    requires question !in seen
    ensures forall i :: 0 <= i < |cases| ==> rules.words(cases[i].question) != question
  {
    forall i | 0 <= i < |cases| ensures rules.words(cases[i].question) != question { assert cases[i] in cases; }
  }

  // ----- what a made case rests on -----

  /** The response names the document and nothing else as its source, the document has every claim and the
      reference in it, and the question is not copied from it. */
  predicate Grounded(g: Generated, d: Document, rules: Rules) {
    && g.sourceIds != [] && (forall s :: s in g.sourceIds ==> s == d.sourceId)
    && (forall c :: c in g.claims ==> Contains(rules.fold(d.text), rules.fold(c)))
    && rules.words(g.reference) != "" && Contains(rules.words(d.text), rules.words(g.reference))
    && (rules.words(g.question) == "" || !Contains(rules.words(d.text), rules.words(g.question)))
  }

  lemma ValidIffGrounded(g: Generated, d: Document, rules: Rules)
    ensures ValidateGenerated(g, d, rules).None? <==> Grounded(g, d, rules)
    ensures !(g.sourceIds != [] && forall s :: s in g.sourceIds ==> s == d.sourceId) ==>
      ValidateGenerated(g, d, rules) == Some("MISSING_OR_UNKNOWN_SOURCE_ID")
  {
    hide Contains;
  }

  /** A case and its holdout say what the response says: the question on both sides, everything else on the
      evaluator's side only. */
  ghost predicate Shows(c: Case, h: Holdout, g: Generated, d: Document, rules: Rules) {
    && c.generated && h.generated && c.caseId == h.caseId == "case-generated-" + rules.hash(d.sourceId + g.question)
    && h.rootId == "generated:root:" + rules.hash(c.caseId)
    && h.replyIds == ["generated:oracle:" + rules.hash(c.caseId)]
    && c.question == g.question && h.question == g.question && c.sourceIds == g.sourceIds && h.sourceIds == g.sourceIds
    && h.rawReplies == [g.reference] && h.claims == g.claims && h.contradictions == g.contradictions
    && h.confidence == 0.0
  }

  /** The case at `i` comes from a grounded response of some call, about the document of that call. */
  ghost predicate FromCall(
    m: Made, i: nat, work: seq<Document>, answers: nat -> Answer<Generated>, rules: Rules, calls: nat)
    requires i < |m.cases| && i < |m.holdouts| && calls <= |work|
  {
    exists k :: 0 <= k < calls && answers(k).Parsed? && Grounded(answers(k).response, work[k], rules)
      && Shows(m.cases[i], m.holdouts[i], answers(k).response, work[k], rules)
  }

  lemma ShowsMade(g: Generated, d: Document, rules: Rules)
    ensures Shows(MakeCase(g, d, rules), MakeHoldout(g, d, rules), g, d, rules)
  {
  }

  /** Of the responses used, each made a case or was noted, every case is grounded in a response and its
      document, and a response is noted only when it is not grounded or an earlier case asks its question. */
  lemma {:induction false} EveryResponseCounts(
    work: seq<Document>, answers: nat -> Answer<Generated>, rules: Rules, calls: nat)
    requires calls <= |work| && forall k :: 0 <= k < calls ==> answers(k).Parsed?
    ensures var m := MadeAfter(work, answers, rules, calls);
      && |m.cases| == |m.holdouts| && |m.cases| + |m.rejections| == calls
      && forall i :: 0 <= i < |m.cases| ==> FromCall(m, i, work, answers, rules, calls)
  {
    if calls > 0 {
      var k := calls - 1;
      EveryResponseCounts(work, answers, rules, k);
      var before, m := MadeAfter(work, answers, rules, k), MadeAfter(work, answers, rules, calls);
      NextResponse(work, answers, rules, k);
      hide MadeAfter, Shows, Grounded;
      forall i | 0 <= i < |m.cases| ensures FromCall(m, i, work, answers, rules, calls) {
        if i < |before.cases| {
          assert FromCall(before, i, work, answers, rules, k);
          var j :| 0 <= j < k && answers(j).Parsed? && Grounded(answers(j).response, work[j], rules)
            && Shows(before.cases[i], before.holdouts[i], answers(j).response, work[j], rules);
        }
      }
    }
  }

  lemma NextResponse(work: seq<Document>, answers: nat -> Answer<Generated>, rules: Rules, k: nat)
    requires k < |work| && answers(k).Parsed?
    ensures var before, m := MadeAfter(work, answers, rules, k), MadeAfter(work, answers, rules, k + 1);
      var g := answers(k).response;
      var repeated := exists c :: c in before.cases && rules.words(c.question) == rules.words(g.question);
      if Grounded(g, work[k], rules) && !repeated
      then
        && |before.cases| + 1 == |m.cases| && before.cases <= m.cases
        && |before.holdouts| + 1 == |m.holdouts| && before.holdouts <= m.holdouts
        && m.rejections == before.rejections
        && Shows(m.cases[|before.cases|], m.holdouts[|before.holdouts|], g, work[k], rules)
      else
        && m.cases == before.cases && m.holdouts == before.holdouts
        && |m.rejections| == |before.rejections| + 1 && before.rejections <= m.rejections
        && m.rejections[|before.rejections|].sourceId == work[k].sourceId
  {
    MadeStep(work, answers, rules, k);
    ValidIffGrounded(answers(k).response, work[k], rules);
    ShowsMade(answers(k).response, work[k], rules);
    hide Grounded, ValidateGenerated, MakeCase, MakeHoldout, Shows, MadeAfter;
  }

  // ----- the work list -----

  /** A generator is a prepared list of responses or a live provider. */
  datatype Generator = Scripted(responses: seq<Answer<Generated>>) | Live(answers: nat -> Answer<Generated>)

  function LastWithId(documents: seq<Document>, id: string): (d: Option<Document>)
    ensures d.Some? ==> d.value in documents && d.value.sourceId == id
    ensures d.None? ==> forall x :: x in documents ==> x.sourceId != id
  {
    if documents == [] then None
    else if documents[|documents| - 1].sourceId == id then Some(documents[|documents| - 1])
    else LastWithId(documents[..|documents| - 1], id)
  }

  /** Of several documents with the id, it is the last. */
  lemma {:induction false} LastWithIdIs(documents: seq<Document>, i: nat)
    requires i < |documents| && forall j :: i < j < |documents| ==> documents[j].sourceId != documents[i].sourceId
    ensures LastWithId(documents, documents[i].sourceId) == Some(documents[i])
    decreases |documents|
  {
    if i < |documents| - 1 { LastWithIdIs(documents[..|documents| - 1], i); }
  }

  /** The first prepared response that does not parse. */
  function FirstFailure(responses: seq<Answer<Generated>>): (status: Option<Status>)
    ensures status.None? <==> forall a :: a in responses ==> a.Parsed?
  {
    if responses == [] then None
    else
      var last := responses[|responses| - 1];
      var before := FirstFailure(responses[..|responses| - 1]);
      if before.Some? then before
      else if last.Failed? then
        assert last in responses && !last.Parsed?;
        Some(last.status)
      else None
  }

  lemma {:induction false} FailureStays(responses: seq<Answer<Generated>>, i: nat)
    requires i <= |responses| && FirstFailure(responses[..i]).Some?
    ensures FirstFailure(responses) == FirstFailure(responses[..i])
  {
    if i < |responses| {
      var n := |responses| - 1;
      assert responses[..n][..i] == responses[..i];
      FailureStays(responses[..n], i);
    } else {
      assert responses[..i] == responses;
    }
  }

  lemma FailureAt(responses: seq<Answer<Generated>>, i: nat)
    requires i < |responses| && responses[i].Failed? && forall a :: a in responses[..i] ==> a.Parsed?
    ensures FirstFailure(responses) == Some(responses[i].status)
  {
    assert responses[..i + 1][..i] == responses[..i];
    FailureStays(responses, i + 1);
  }

  /** The prepared responses about a known document, and those documents. */
  function KnownOf(responses: seq<Answer<Generated>>, documents: seq<Document>): (r: seq<(Document, Answer<Generated>)>)
    ensures |r| <= |responses|
    ensures forall p :: p in r ==> p.0 in documents && p.1 in responses
  {
    if responses == [] then []
    else
      var a := responses[|responses| - 1];
      var before := KnownOf(responses[..|responses| - 1], documents);
      if a.Parsed? && a.response.sourceIds != [] && LastWithId(documents, a.response.sourceIds[0]).Some?
      then before + [(LastWithId(documents, a.response.sourceIds[0]).value, a)]
      else before
  }

  /** The prepared responses about no known document, as noted. */
  function UnknownOf(responses: seq<Answer<Generated>>, documents: seq<Document>): (r: seq<Rejection>) {
    if responses == [] then []
    else
      var a := responses[|responses| - 1];
      var before := UnknownOf(responses[..|responses| - 1], documents);
      if a.Parsed? && a.response.sourceIds != [] && LastWithId(documents, a.response.sourceIds[0]).None?
      then before + [Rejection(a.response.sourceIds[0], "MISSING_OR_UNKNOWN_SOURCE_ID")]
      else before
  }

  function Firsts<A, B>(pairs: seq<(A, B)>): (r: seq<A>)
    ensures |r| == |pairs| && forall i :: 0 <= i < |r| ==> r[i] == pairs[i].0
  {
    seq(|pairs|, i requires 0 <= i < |pairs| => pairs[i].0)
  }

  function Seconds<A, B>(pairs: seq<(A, B)>): (r: seq<B>)
    ensures |r| == |pairs| && forall i :: 0 <= i < |r| ==> r[i] == pairs[i].1
  {
    seq(|pairs|, i requires 0 <= i < |pairs| => pairs[i].1)
  }

  lemma KnownStep(responses: seq<Answer<Generated>>, documents: seq<Document>, i: nat)
    requires i < |responses| && responses[i].Parsed? && responses[i].response.sourceIds != []
    ensures var known := KnownOf(responses[..i + 1], documents);
      var before := KnownOf(responses[..i], documents);
      var d := LastWithId(documents, responses[i].response.sourceIds[0]);
      known == if d.Some? then before + [(d.value, responses[i])] else before
    ensures var id := responses[i].response.sourceIds[0];
      var noted := UnknownOf(responses[..i], documents);
      UnknownOf(responses[..i + 1], documents) ==
        if LastWithId(documents, id).None? then noted + [Rejection(id, "MISSING_OR_UNKNOWN_SOURCE_ID")] else noted
  {
    hide LastWithId;
    assert responses[..i + 1][..i] == responses[..i];
  }

  /** What is kept and what is noted. */
  ghost predicate Prepared(
    work: seq<Document>, kept: seq<Answer<Generated>>, rejections: seq<Rejection>, responses: seq<Answer<Generated>>,
    documents: seq<Document>)
  {
    && |kept| == |work| && (forall d :: d in work ==> d in documents)
    && (forall a :: a in kept ==> a.Parsed? && a in responses)
    && (forall i :: 0 <= i < |work| ==>
          kept[i].Parsed? && kept[i].response.sourceIds != [] && kept[i].response.sourceIds[0] == work[i].sourceId)
    && (forall r :: r in rejections ==>
          r.reason == "MISSING_OR_UNKNOWN_SOURCE_ID" && forall d :: d in documents ==> d.sourceId != r.sourceId)
  }

  lemma {:induction false} KnownMatch(responses: seq<Answer<Generated>>, documents: seq<Document>)
    ensures forall p :: p in KnownOf(responses, documents) ==>
      p.0 in documents && p.1 in responses && p.1.Parsed? && p.1.response.sourceIds != []
      && p.1.response.sourceIds[0] == p.0.sourceId
    ensures forall r :: r in UnknownOf(responses, documents) ==>
      r.reason == "MISSING_OR_UNKNOWN_SOURCE_ID" && forall d :: d in documents ==> d.sourceId != r.sourceId
  {
    if responses != [] {
      var n := |responses| - 1;
      KnownMatch(responses[..n], documents);
      hide LastWithId;
    }
  }

  lemma PreparedIs(responses: seq<Answer<Generated>>, documents: seq<Document>)
    ensures var known := KnownOf(responses, documents);
      Prepared(Firsts(known), Seconds(known), UnknownOf(responses, documents), responses, documents)
  {
    KnownMatch(responses, documents);
    hide KnownOf, UnknownOf;
    var known := KnownOf(responses, documents);
    forall i | 0 <= i < |known| ensures known[i] in known {}
  }

  lemma PreparedOfMore(
    work: seq<Document>, kept: seq<Answer<Generated>>, rejections: seq<Rejection>, responses: seq<Answer<Generated>>,
    i: nat, documents: seq<Document>)
    requires i <= |responses| && Prepared(work, kept, rejections, responses[..i], documents)
    ensures Prepared(work, kept, rejections, responses, documents)
  {
  }

  /** A prepared response that does not parse stops everything; one about an unknown document is rejected. */
  method PrepareScripted(responses: seq<Answer<Generated>>, documents: seq<Document>)
    returns (failed: Option<Status>, work: seq<Document>, kept: seq<Answer<Generated>>, rejections: seq<Rejection>)
    requires forall a :: a in responses && a.Parsed? ==> a.response.sourceIds != []
    ensures Prepared(work, kept, rejections, responses, documents)
    ensures failed == FirstFailure(responses)
    ensures failed.None? ==>
      && work == Firsts(KnownOf(responses, documents)) && kept == Seconds(KnownOf(responses, documents))
      && rejections == UnknownOf(responses, documents) && |work| + |rejections| == |responses|
  {
    hide *;
    failed, work, kept, rejections := None, [], [], [];
    NothingKnown(documents);
    assert responses[..0] == [];
    for i := 0 to |responses|
      invariant work == Firsts(KnownOf(responses[..i], documents))
        && kept == Seconds(KnownOf(responses[..i], documents))
      invariant |work| + |rejections| == i && rejections == UnknownOf(responses[..i], documents)
      invariant forall a :: a in responses[..i] ==> a.Parsed?
    {
      var a := responses[i];
      assert a in responses;
      if a.Failed? {
        FailureAt(responses, i);
        PreparedIs(responses[..i], documents);
        PreparedOfMore(work, kept, rejections, responses, i, documents);
        return Some(a.status), work, kept, rejections;
      }
      KnownStep(responses, documents, i);
      var id := a.response.sourceIds[0];
      var d := LastWithId(documents, id);
      if d.None? {
        rejections := rejections + [Rejection(id, "MISSING_OR_UNKNOWN_SOURCE_ID")];
      } else {
        work := work + [d.value];
        kept := kept + [a];
      }
      assert responses[..i + 1] == responses[..i] + [a];
    }
    assert responses[..|responses|] == responses;
    PreparedIs(responses, documents);
  }

  lemma NothingKnown(documents: seq<Document>)
    ensures KnownOf([], documents) == [] && UnknownOf([], documents) == []
  {
  }

  /** The documents over and over, as often as calls are allowed. */
  function Cycle(documents: seq<Document>, calls: nat): (work: seq<Document>)
    ensures forall d :: d in work ==> d in documents
  {
    if documents == [] then [] else seq(calls, i requires 0 <= i < calls => documents[i % |documents|])
  }

  /** There is one for each call: call `i` asks about the document at `i`, counted round. */
  lemma CycleGoesRound(documents: seq<Document>, calls: nat, i: nat)
    requires documents != [] && i < calls
    ensures |Cycle(documents, calls)| == calls
    ensures Cycle(documents, calls)[i] == documents[i % |documents|]
  {
  }
}
