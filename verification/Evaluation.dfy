/** Scoring cases and aggregating them per candidate, with Python's rounding on exact reals.

    A case is scored on its own. Retrieval-only scoring reports the share of gold sources that were
    cited; answer-aware scoring adds four weighted parts, each rounded to four places, and rounds their
    sum. Rounding keeps a value inside any range with whole ends (`RoundStaysBetween`), so every score
    lies between 0 and 100 (`CaseScoreBounds`).

    A candidate's aggregate is made in one pass. Its totals are bounded by the number of cases
    (`TallyBounds`), which puts every field of the result in the range its contract demands
    (`AggregateInRange`); what remains to go wrong is what the caller passes along, and the method says
    exactly when it does (`EvaluateCandidate`).

    The percentiles are Python's inclusive quantiles: cut points between neighbours in sorted order. A
    higher percentile is never lower (`QuantileMonotone`), and the order in which latencies came in does
    not matter (`PercentilesAreOrdered`). Nor does the order of the cases for the aggregate as a whole
    (`AggregateIgnoresOrder`): removing one case and adding it again at the end comes to the same
    (`TallyRemove`).

    Two gates of the decision are implied by others: with retrieval-only scoring the quality floor
    implies the source-support gate (`QualityIsSupport`), and no partial failure implies full success
    (`NoFailureMeansFullSuccess`). */
module Evaluation {
  import opened Options
  import opened Ordering
  import Decision

  // ----- round(x, 4) -----

  /** The nearest integer, ties to even. */
  function Nearest(y: real): (n: int)
    ensures -0.5 <= n as real - y <= 0.5
    ensures n as real - y == 0.5 || n as real - y == -0.5 ==> n % 2 == 0
  {
    var f := y.Floor;
    if y - f as real < 0.5 || (y - f as real == 0.5 && f % 2 == 0) then f else f + 1
  }

  function Round4(x: real): (r: real)
    ensures -0.00005 <= r - x <= 0.00005
  {
    Nearest(x * 10000.0) as real / 10000.0
  }

  lemma NearestMonotone(x: real, y: real)
    requires x <= y
    ensures Nearest(x) <= Nearest(y)
  {
  }

  lemma NearestExact(n: int)
    ensures Nearest(n as real) == n
  {
  }

  /** Rounding keeps values inside any range whose ends are whole numbers. */
  lemma RoundStaysBetween(x: real, low: int, high: int)
    requires low as real <= x <= high as real
    ensures low as real <= Round4(x) <= high as real
  {
    var scaled := x * 10000.0;
    assert (low * 10000) as real == low as real * 10000.0 <= scaled <= high as real * 10000.0 == (high * 10000) as real;
    NearestMonotone((low * 10000) as real, scaled);
    NearestMonotone(scaled, (high * 10000) as real);
    NearestExact(low * 10000);
    NearestExact(high * 10000);
    assert low * 10000 <= Nearest(scaled) <= high * 10000;
    assert (low * 10000) as real / 10000.0 == low as real && (high * 10000) as real / 10000.0 == high as real;
  }

  // ----- one case -----

  datatype Mode = RETRIEVAL_ONLY | ANSWER_AWARE

  datatype Case = Case(gold: seq<string>, expected: seq<string>, forbidden: seq<string>, generated: bool)

  datatype Answered = Answered(
    case_: Case, answer: string, blank: bool, cited: seq<string>, confidence: real, latency: int, ok: bool)

  datatype Score = Score(
    ok: bool, score: real, recall: real, required: nat, cited: nat, forbidden: nat, generated: bool, latency: nat)

  /** Behind a kind in lower case stands the first colon, and something on the same line after it. */
  predicate EndsKind(s: string, k: nat) {
    && k + 1 < |s| && s[k] == ':' && s[k + 1] != '\n'
    && forall i :: 1 <= i < k ==> 'a' <= s[i] <= 'z' || '0' <= s[i] <= '9' || s[i] == '_' || s[i] == '-'
  }

  /** `^[a-z][a-z0-9_-]*:.+`, of 3 to 512 characters. */
  predicate IsSourceId(s: string) {
    3 <= |s| <= 512 && 'a' <= s[0] <= 'z' && exists k :: 1 <= k < |s| && EndsKind(s, k)
  }

  /** Of the ids of one kind, those with something behind the colon and at most 512 characters in all; an id needs a
      colon and starts with a lower-case letter. */
  lemma SourceIdTells(kind: string, rest: string)
    requires kind != "" && forall c :: c in kind ==> 'a' <= c <= 'z' || '0' <= c <= '9' || c == '_' || c == '-'
    ensures IsSourceId(kind + ":" + rest) <==>
      'a' <= kind[0] <= 'z' && rest != "" && rest[0] != '\n' && |kind| + |rest| <= 511
    ensures !IsSourceId(kind)
  {
    var s, n := kind + ":" + rest, |kind|;
    assert s[n] == ':' && (rest != "" ==> s[n + 1] == rest[0]);
    assert forall i :: 0 <= i < n ==> s[i] == kind[i] && kind[i] in kind;
    assert forall k :: n < k < |s| && EndsKind(s, k) ==> s[n] != ':';
    assert EndsKind(s, n) <==> rest != "" && rest[0] != '\n';
  }

  /** A confidence out of range, a negative latency or a malformed citation makes scoring raise. */
  predicate Valid(a: Answered) {
    0.0 <= a.confidence <= 1.0 && a.latency >= 0 && forall c :: c in a.cited ==> IsSourceId(c)
  }

  function ToSet(xs: seq<string>): (s: set<string>)
    ensures |s| <= |xs|
    ensures xs != [] ==> s != {}
    ensures forall x :: x in s <==> x in xs
  {
    if xs == [] then {}
    else
      var rest := ToSet(xs[1..]);
      assert forall x :: x in xs <==> x == xs[0] || x in xs[1..];
      rest + {xs[0]}
  }

  lemma SubsetSize<T>(a: set<T>, b: set<T>)
    requires a <= b
    ensures |a| <= |b|
  {
    assert b == a + (b - a);
  }

  /** Every token of the claim occurs in the answer; an empty claim never does. */
  predicate ClaimPresent(claim: string, answer: string, tokens: string -> set<string>) {
    tokens(claim) != {} && tokens(claim) <= tokens(answer)
  }

  function CountPresent(claims: seq<string>, answer: string, tokens: string -> set<string>): (n: nat)
    ensures n <= |claims|
  {
    if claims == [] then 0
    else
      var n := |claims| - 1;
      CountPresent(claims[..n], answer, tokens) + if ClaimPresent(claims[n], answer, tokens) then 1 else 0
  }

  function Hits(a: Answered): (n: nat)
    ensures n <= |ToSet(a.case_.gold)|
  {
    SubsetSize(ToSet(a.case_.gold) * ToSet(a.cited), ToSet(a.case_.gold));
    |ToSet(a.case_.gold) * ToSet(a.cited)|
  }

  function Ratio(n: nat, d: nat): (r: real)
    requires n <= d
    ensures 0.0 <= r <= 1.0
  {
    if d == 0 then 0.0 else n as real / d as real
  }

  function Recall(a: Answered): (r: real)
    ensures 0.0 <= r <= 1.0
  {
    Ratio(Hits(a), |ToSet(a.case_.gold)|)
  }

  function EvaluateCase(a: Answered, mode: Mode, tokens: string -> set<string>): (s: Option<Score>)
    ensures s.Some? <==> Valid(a)
  {
    if !Valid(a) then None
    else if !a.ok then
      var required := if mode == RETRIEVAL_ONLY then 0 else |a.case_.expected|;
      Some(Score(false, 0.0, 0.0, required, 0, 0, a.case_.generated, a.latency))
    else
      var recall := Round4(100.0 * Recall(a));
      if mode == RETRIEVAL_ONLY then Some(Score(true, recall, recall, 0, 0, 0, a.case_.generated, a.latency))
      else
        var n := |a.case_.expected|;
        var covered := CountPresent(a.case_.expected, a.answer, tokens);
        var cited := if Hits(a) > 0 then covered else 0;
        var bad := CountPresent(a.case_.forbidden, a.answer, tokens);
        var styled := !a.blank && a.cited != [];
        Some(Score(true, AnswerScore(Ratio(covered, n), Ratio(cited, n), a.confidence, bad > 0, styled), recall, n,
          cited,
                   bad, a.case_.generated, a.latency))
  }

  /** The four weighted parts of an answer's score, each rounded, then their rounded total. */
  function AnswerScore(covered: real, cited: real, confidence: real, contradicted: bool, styled: bool): (r: real) {
    Round4(
      Round4(45.0 * covered) + Round4(25.0 * cited * confidence)
      + (if contradicted then 0.0 else 20.0) + (if styled then 10.0 else 0.0))
  }

  lemma AnswerScoreBounds(covered: real, cited: real, confidence: real, contradicted: bool, styled: bool)
    requires 0.0 <= covered <= 1.0 && 0.0 <= cited <= 1.0 && 0.0 <= confidence <= 1.0
    ensures 0.0 <= AnswerScore(covered, cited, confidence, contradicted, styled) <= 100.0
  {
    ProductBound(25.0 * cited, confidence);
    RoundStaysBetween(45.0 * covered, 0, 45);
    RoundStaysBetween(25.0 * cited * confidence, 0, 25);
    hide Round4;
    var total :=
      Round4(45.0 * covered) + Round4(25.0 * cited * confidence)
      + (if contradicted then 0.0 else 20.0) + (if styled then 10.0 else 0.0);
    RoundStaysBetween(total, 0, 100);
  }

  lemma ProductBound(x: real, c: real)
    requires 0.0 <= x <= 25.0 && 0.0 <= c <= 1.0
    ensures 0.0 <= x * c <= 25.0
  {
    NonNegative(x, c);
    NonNegative(x, 1.0 - c);
    assert x * (1.0 - c) == x - x * c;
  }

  lemma NonNegative(x: real, y: real)
    requires x >= 0.0 && y >= 0.0
    ensures x * y >= 0.0
  {
  }

  lemma NearestShift(y: real, k: int)
    ensures Nearest(y + (2 * k) as real) == Nearest(y) + 2 * k
  {
    assert (y + (2 * k) as real).Floor == y.Floor + 2 * k;
  }

  lemma Round4Shift(x: real, k: int)
    ensures Round4(x + k as real) == Round4(x) + k as real
  {
    NearestShift(x * 10000.0, 5000 * k);
    assert (x + k as real) * 10000.0 == x * 10000.0 + (2 * (5000 * k)) as real;
  }

  lemma Round4Monotone(x: real, y: real)
    requires x <= y
    ensures Round4(x) <= Round4(y)
  {
    NearestMonotone(x * 10000.0, y * 10000.0);
  }

  /** The score is 45 for coverage, 25 for cited support, 20 for the lack of a contradiction and 10 for style, up
      to rounding. A contradiction costs exactly 20 points and style is worth exactly 10, whatever the rest is;
      more coverage, support or confidence never lowers the score. */
  lemma AnswerScoreTells(covered: real, cited: real, confidence: real, contradicted: bool, styled: bool)
    ensures var ideal := 45.0 * covered + 25.0 * cited * confidence
        + (if contradicted then 0.0 else 20.0) + (if styled then 10.0 else 0.0);
      -0.00015 <= AnswerScore(covered, cited, confidence, contradicted, styled) - ideal <= 0.00015
    ensures AnswerScore(covered, cited, confidence, false, styled) ==
      AnswerScore(covered, cited, confidence, true, styled) + 20.0
    ensures AnswerScore(covered, cited, confidence, contradicted, true) ==
      AnswerScore(covered, cited, confidence, contradicted, false) + 10.0
  {
    var parts := Round4(45.0 * covered) + Round4(25.0 * cited * confidence);
    hide Round4;
    Round4Shift(parts, 20);
    Round4Shift(parts, 10);
    Round4Shift(parts, 30);
    assert parts + 20.0 + 0.0 == parts + 20 as real && parts + 0.0 + 10.0 == parts + 10 as real;
    assert parts + 20.0 + 10.0 == parts + 30 as real && parts + 0.0 + 0.0 == parts;
  }

  lemma MoreNeverHurts(
    covered: real, cited: real, confidence: real, covered': real, cited': real, confidence': real, contradicted: bool,
    styled: bool)
    requires 0.0 <= covered <= covered' && 0.0 <= cited <= cited' && 0.0 <= confidence <= confidence'
    ensures AnswerScore(covered, cited, confidence, contradicted, styled) <=
      AnswerScore(covered', cited', confidence', contradicted, styled)
  {
    hide Round4;
    SupportMonotone(cited, confidence, cited', confidence');
    Round4Monotone(45.0 * covered, 45.0 * covered');
    Round4Monotone(25.0 * cited * confidence, 25.0 * cited' * confidence');
    var rest := (if contradicted then 0.0 else 20.0) + (if styled then 10.0 else 0.0);
    var low := Round4(45.0 * covered) + Round4(25.0 * cited * confidence);
    var high := Round4(45.0 * covered') + Round4(25.0 * cited' * confidence');
    Round4Monotone(low + rest, high + rest);
    RestIs(low, contradicted, styled);
    RestIs(high, contradicted, styled);
  }

  lemma RestIs(parts: real, contradicted: bool, styled: bool)
    ensures parts + ((if contradicted then 0.0 else 20.0) + (if styled then 10.0 else 0.0)) ==
      parts + (if contradicted then 0.0 else 20.0) + (if styled then 10.0 else 0.0)
  {
  }

  lemma SupportMonotone(c: real, f: real, c': real, f': real)
    requires 0.0 <= c <= c' && 0.0 <= f <= f'
    ensures 25.0 * c * f <= 25.0 * c' * f'
  {
    NonNegative(c' - c, f);
    NonNegative(c', f' - f);
    var x, y := c * f, c' * f';
    assert y - x == (c' - c) * f + c' * (f' - f);
    assert 25.0 * c * f == 25.0 * x && 25.0 * c' * f' == 25.0 * y;
  }

  /** The positions of the claims all of whose tokens the answer has; a claim without tokens is never there. */
  ghost function PresentAt(claims: seq<string>, answer: string, tokens: string -> set<string>): (at: set<nat>) {
    set i: nat | i < |claims| && tokens(claims[i]) != {} && tokens(claims[i]) <= tokens(answer)
  }

  lemma {:induction false} CountIsCardinality(claims: seq<string>, answer: string, tokens: string -> set<string>)
    ensures CountPresent(claims, answer, tokens) == |PresentAt(claims, answer, tokens)|
  {
    var at := PresentAt(claims, answer, tokens);
    if claims == [] {
      assert at == {};
    } else {
      var n := |claims| - 1;
      var before := PresentAt(claims[..n], answer, tokens);
      CountIsCardinality(claims[..n], answer, tokens);
      assert at == before + if ClaimPresent(claims[n], answer, tokens) then {n} else {};
      assert n !in before;
    }
  }

  /** What a case reports, said of the answer itself: how many claims it has, how many forbidden ones, and whether
      it cites a gold source. */
  lemma CaseTells(a: Answered, tokens: string -> set<string>)
    requires Valid(a) && a.ok
    ensures var s := EvaluateCase(a, ANSWER_AWARE, tokens).value;
      var covered := |PresentAt(a.case_.expected, a.answer, tokens)|;
      var bad := |PresentAt(a.case_.forbidden, a.answer, tokens)|;
      var supported := exists g :: g in a.case_.gold && g in a.cited;
      && s.ok && s.generated == a.case_.generated && s.latency == a.latency
      && s.required == |a.case_.expected| && s.forbidden == bad && s.cited == (if supported then covered else 0)
      && covered <= |a.case_.expected|
      && s.score == AnswerScore(
           Ratio(covered, |a.case_.expected|), Ratio(s.cited, |a.case_.expected|), a.confidence, bad > 0,
           !a.blank && a.cited != [])
  {
    CountIsCardinality(a.case_.expected, a.answer, tokens);
    CountIsCardinality(a.case_.forbidden, a.answer, tokens);
    HitsIff(a);
    hide PresentAt, Round4, AnswerScore, Ratio, Recall, Hits;
  }

  lemma HitsIff(a: Answered)
    ensures Hits(a) > 0 <==> exists g :: g in a.case_.gold && g in a.cited
  {
    var both := ToSet(a.case_.gold) * ToSet(a.cited);
    if g :| g in a.case_.gold && g in a.cited {
      assert g in both;
    } else {
      assert both == {};
    }
  }

  /** With a forbidden claim in it an answer scores exactly 20 points less than it would without. */
  lemma ForbiddenClaimCosts(a: Answered, tokens: string -> set<string>)
    requires Valid(a) && a.ok
    ensures var harmless := a.(case_ := a.case_.(forbidden := []));
      EvaluateCase(a, ANSWER_AWARE, tokens).value.score ==
        EvaluateCase(harmless, ANSWER_AWARE, tokens).value.score
        - if PresentAt(a.case_.forbidden, a.answer, tokens) == {} then 0.0 else 20.0
  {
    hide *;
    var harmless := a.(case_ := a.case_.(forbidden := []));
    StillValid(a, harmless);
    CaseTells(a, tokens);
    CaseTells(harmless, tokens);
    NothingPresent(a.answer, tokens);
    var n, s := |a.case_.expected|, EvaluateCase(a, ANSWER_AWARE, tokens).value;
    AnswerScoreTells(Ratio(|PresentAt(a.case_.expected, a.answer, tokens)|, n), Ratio(s.cited, n), a.confidence, true,
      !a.blank && a.cited != []);
  }

  lemma StillValid(a: Answered, b: Answered)
    requires Valid(a) && a.confidence == b.confidence && a.latency == b.latency && a.cited == b.cited
    ensures Valid(b)
  {
  }

  lemma NothingPresent(answer: string, tokens: string -> set<string>)
    ensures PresentAt([], answer, tokens) == {}
  {
  }

  /** A case without an answer scores nothing, and yet all its claims are required of it; retrieval-only scoring
      looks at no claims. */
  lemma UnansweredTells(a: Answered, mode: Mode, tokens: string -> set<string>)
    requires Valid(a)
    ensures var s := EvaluateCase(a, mode, tokens).value;
      && (!a.ok ==> s.score == 0.0 && s.recall == 0.0 && s.cited == 0 && s.forbidden == 0)
      && s.required == (if mode == RETRIEVAL_ONLY then 0 else |a.case_.expected|)
      && (mode == RETRIEVAL_ONLY ==> s.cited == 0 && s.forbidden == 0)
  {
    hide Round4, AnswerScore, Recall, Hits, CountPresent, Ratio;
  }

  /** Gold sources are counted once each, however often they are listed or cited. */
  lemma RecallTells(a: Answered)
    ensures var gold, found := (set g | g in a.case_.gold), set g | g in a.case_.gold && g in a.cited;
      && |found| <= |gold| && Recall(a) == if gold == {} then 0.0 else |found| as real / |gold| as real
  {
    var gold, found := (set g | g in a.case_.gold), set g | g in a.case_.gold && g in a.cited;
    SubsetSize(found, gold);
    AsSets(a.case_.gold, a.cited);
    hide ToSet;
  }

  lemma AsSets(gold: seq<string>, cited: seq<string>)
    ensures (set g | g in gold) == ToSet(gold) && (set g | g in gold && g in cited) == ToSet(gold) * ToSet(cited)
  {
  }

  /** A case that was answered scores between 0 and 100, and the recall it reports is at most 0.00005
      away from the share of gold sources that were cited. */
  lemma CaseScoreBounds(a: Answered, mode: Mode, tokens: string -> set<string>)
    requires EvaluateCase(a, mode, tokens).Some?
    ensures var s := EvaluateCase(a, mode, tokens).value;
      && 0.0 <= s.score <= 100.0 && 0.0 <= s.recall <= 100.0
      && s.cited <= s.required && (mode == RETRIEVAL_ONLY ==> s.score == s.recall && s.required == 0)
      && (s.ok ==> -0.00005 <= s.recall - 100.0 * Recall(a) <= 0.00005)
  {
    hide Round4, AnswerScore, Recall, Hits, CountPresent, Ratio, ToSet;
    RoundStaysBetween(100.0 * Recall(a), 0, 100);
    if a.ok && mode == ANSWER_AWARE {
      var n := |a.case_.expected|;
      var covered := CountPresent(a.case_.expected, a.answer, tokens);
      var cited := if Hits(a) > 0 then covered else 0;
      var bad := CountPresent(a.case_.forbidden, a.answer, tokens);
      AnswerScoreBounds(Ratio(covered, n), Ratio(cited, n), a.confidence, bad > 0, !a.blank && a.cited != []);
    }
  }

  // ----- percentiles -----

  predicate IntLe(a: int, b: int) { a <= b }

  /** Where the `p`-th of 99 inclusive cut points falls among `m + 1` sorted values: between `j` and
      `j + 1`, `delta` hundredths of the way. */
  function Cut(p: nat, m: nat): (r: (nat, nat))
    requires 1 <= p <= 99 && m >= 1
    ensures r.0 < m && r.1 < 100 && 100 * r.0 + r.1 == p * m
  {
    assert p * m <= 99 * m;
    (p * m / 100, p * m % 100)
  }

  function Blend(a: int, b: int, d: nat): (r: int)
    requires d <= 100
  {
    a * (100 - d) + b * d
  }

  lemma BlendBetween(a: int, b: int, d: nat, e: nat)
    requires a <= b && d <= e <= 100
    ensures a * 100 <= Blend(a, b, d) <= Blend(a, b, e) <= b * 100
  {
    BlendIs(a, b, d);
    BlendIs(a, b, e);
    hide Blend;
    TimesMonotone(b - a, 0, d);
    TimesMonotone(b - a, d, e);
    TimesMonotone(b - a, e, 100);
  }

  lemma TimesMonotone(x: nat, d: nat, e: nat)
    requires d <= e
    ensures x * d <= x * e
  {
  }

  /** `quantiles(values, n=100, method="inclusive")[p - 1]` on sorted data of at least two values. */
  function Quantile(data: seq<int>, p: nat): (q: real)
    requires |data| >= 2 && 1 <= p <= 99
  {
    var (j, delta) := Cut(p, |data| - 1);
    Blend(data[j], data[j + 1], delta) as real / 100.0
  }

  function Ordered(values: seq<int>): (r: seq<int>)
    ensures |r| == |values|
  {
    SortMultiset(values, IntLe);
    Sort(values, IntLe)
  }

  function Percentile(values: seq<int>, p: nat): (q: Option<real>)
    requires 1 <= p <= 99
  {
    if values == [] then None
    else if |values| == 1 then Some(values[0] as real)
    else Some(Quantile(Ordered(values), p))
  }

  lemma SortedAt(data: seq<int>, i: nat, j: nat)
    requires i <= j < |data| && Sorted(data, IntLe)
    ensures data[i] <= data[j]
  {
    if i < j { assert IntLe(data[i], data[j]); }
  }

  /** A step up in percentile never lowers the value, and the value stays between the extremes. */
  lemma QuantileMonotone(data: seq<int>, p: nat, q: nat)
    requires |data| >= 2 && 1 <= p <= q <= 99 && Sorted(data, IntLe)
    ensures data[0] as real <= Quantile(data, p) <= Quantile(data, q) <= data[|data| - 1] as real
  {
    var m := |data| - 1;
    CutMonotone(p, q, m);
    hide Cut, Blend, Sorted;
    var (j, d) := Cut(p, m);
    var (k, e) := Cut(q, m);
    assert 100 * data[0] <= Blend(data[j], data[j + 1], d) <= Blend(data[k], data[k + 1], e) <= 100 * data[m] by {
      SortedAt(data, 0, j);
      SortedAt(data, j, j + 1);
      SortedAt(data, k, k + 1);
      SortedAt(data, k + 1, m);
      BlendBetween(data[j], data[j + 1], d, d);
      BlendBetween(data[k], data[k + 1], e, e);
      if j == k {
        BlendBetween(data[j], data[j + 1], d, e);
      } else {
        SortedAt(data, j + 1, k);
      }
    }
    Hundredths(data[0], Blend(data[j], data[j + 1], d), Blend(data[k], data[k + 1], e), data[m]);
  }

  lemma Hundredths(a: int, x: int, y: int, b: int)
    requires 100 * a <= x <= y <= 100 * b
    ensures a as real <= x as real / 100.0 <= y as real / 100.0 <= b as real
  {
  }

  lemma CutMonotone(p: nat, q: nat, m: nat)
    requires 1 <= p <= q <= 99 && m >= 1
    ensures Cut(p, m).0 < Cut(q, m).0 || (Cut(p, m).0 == Cut(q, m).0 && Cut(p, m).1 <= Cut(q, m).1)
  {
    assert (q - p) * m >= 0;
    assert p * m <= q * m;
  }

  /** A percentile is one of the sorted latencies, or lies between two neighbours as far along as the cut does. */
  lemma PercentileTells(values: seq<int>, p: nat, j: nat)
    requires 1 <= p <= 99 && values != []
    ensures |values| == 1 ==> Percentile(values, p) == Some(values[0] as real)
    ensures var m := |values| - 1;
      j < m && 100 * j <= p * m < 100 * (j + 1) ==>
        && Percentile(values, p).Some?
        && var sorted := Sort(values, IntLe);
           |sorted| == |values| && Percentile(values, p).value * 100.0 ==
             (100 * sorted[j] + (sorted[j + 1] - sorted[j]) * (p * m - 100 * j)) as real
  {
    var m := |values| - 1;
    if j < m && 100 * j <= p * m < 100 * (j + 1) {
      var data := Ordered(values);
      var (k, delta) := Cut(p, m);
      assert k == j && delta == p * m - 100 * j;
      BlendIs(data[j], data[j + 1], delta);
      hide Cut, Blend, Sort;
    }
  }

  lemma BlendIs(a: int, b: int, d: nat)
    requires d <= 100
    ensures Blend(a, b, d) == 100 * a + (b - a) * d
  {
  }

  lemma OrderedForgetsArrival(values: seq<int>, others: seq<int>)
    requires multiset(values) == multiset(others)
    ensures Ordered(values) == Ordered(others) && Sorted(Ordered(values), IntLe)
    ensures |values| == |others| && (|values| == 1 ==> values[0] == others[0])
  {
    MultisetMembers(values, others);
    if |values| == 1 { assert others[0] in values; }
    SortPermutation(values, others, IntLe);
    SortSorted(values, IntLe);
  }

  /** The percentiles of any latencies: p50 is at most p95, and arrival order does not matter. */
  lemma PercentilesAreOrdered(values: seq<int>, others: seq<int>)
    requires multiset(values) == multiset(others)
    ensures Percentile(values, 50) == Percentile(others, 50) && Percentile(values, 95) == Percentile(others, 95)
    ensures values != [] ==> Percentile(values, 50).value <= Percentile(values, 95).value
    ensures values == [] <==> Percentile(values, 50).None?
    ensures values == [] <==> Percentile(values, 95).None?
  {
    OrderedForgetsArrival(values, others);
    hide Ordered, Quantile, Sorted;
    if |values| > 1 { QuantileMonotone(Ordered(values), 50, 95); }
  }

  // ----- one candidate -----

  predicate AllValid(items: seq<Answered>) {
    forall a :: a in items ==> Valid(a)
  }

  function ScoreOf(a: Answered, mode: Mode, tokens: string -> set<string>): (s: Score)
    requires Valid(a)
  {
    EvaluateCase(a, mode, tokens).value
  }

  datatype Totals = Totals(
    scored: nat, answered: nat, generated: nat, quality: real, required: nat, cited: nat, contradictions: nat,
    recall: real, latencies: seq<int>)

  function Plus(t: Totals, s: Score): (r: Totals) {
    Totals(t.scored + 1, t.answered + (if s.ok then 1 else 0), t.generated + (if s.generated then 1 else 0),
           t.quality + s.score, t.required + s.required, t.cited + s.cited, t.contradictions + s.forbidden,
           t.recall + s.recall, t.latencies + (if s.ok && s.latency > 0 then [s.latency] else []))
  }

  function Tally(items: seq<Answered>, mode: Mode, tokens: string -> set<string>): (t: Totals)
    requires AllValid(items)
  {
    if items == [] then Totals(0, 0, 0, 0.0, 0, 0, 0, 0.0, [])
    else Plus(Tally(items[..|items| - 1], mode, tokens), ScoreOf(items[|items| - 1], mode, tokens))
  }

  datatype Aggregate = Aggregate(
    statusOk: bool, scored: nat, answered: nat, quality: real, successRate: real, sourceSupport: real,
    contradictions: nat, p50: Option<real>, p95: Option<real>, generated: nat, partialFailures: int)

  function Support(t: Totals, mode: Mode): (r: real) {
    if mode == RETRIEVAL_ONLY && t.scored > 0 then t.recall / (100 * t.scored) as real
    else if t.required > 0 then t.cited as real / t.required as real
    else 0.0
  }

  function Mean(total: real, n: nat): (r: real) {
    if n == 0 then 0.0 else total / n as real
  }

  function Summary(t: Totals, mode: Mode): (r: Aggregate) {
    Aggregate(t.scored > 0, t.scored, t.answered, Round4(Mean(t.quality, t.scored)), Mean(t.answered as real, t.scored),
              Support(t, mode), t.contradictions, Percentile(t.latencies, 50), Percentile(t.latencies, 95), t.generated,
              t.scored - t.answered)
  }

  function NatSum(items: seq<Answered>, f: Answered -> nat): (sum: nat) {
    if items == [] then 0 else NatSum(items[..|items| - 1], f) + f(items[|items| - 1])
  }

  function RealSum(items: seq<Answered>, f: Answered -> real): (sum: real) {
    if items == [] then 0.0 else RealSum(items[..|items| - 1], f) + f(items[|items| - 1])
  }

  /** The latencies that count: positive ones of cases that were answered. */
  function Latencies(items: seq<Answered>): (values: seq<int>) {
    if items == [] then []
    else
      var last := items[|items| - 1];
      Latencies(items[..|items| - 1]) + if last.ok && last.latency > 0 then [last.latency] else []
  }

  /** The sums over the cases of what each of them reports. */
  datatype Sums = Sums(
    answered: nat, generated: nat, score: real, recall: real, required: nat, cited: nat, contradictions: nat)

  function SumsOf(items: seq<Answered>, mode: Mode, tokens: string -> set<string>): (r: Sums)
    requires AllValid(items)
  {
    var of := (a: Answered) => if Valid(a) then EvaluateCase(a, mode, tokens).value
      else Score(false, 0.0, 0.0, 0, 0, 0, false, 0);
    Sums(NatSum(items, (a: Answered) => if a.ok then 1 else 0),
         NatSum(items, (a: Answered) => if a.case_.generated then 1 else 0),
         RealSum(items, (a: Answered) => of(a).score), RealSum(items, (a: Answered) => of(a).recall),
         NatSum(items, (a: Answered) => of(a).required), NatSum(items, (a: Answered) => of(a).cited),
         NatSum(items, (a: Answered) => of(a).forbidden))
  }

  lemma SumsStep(items: seq<Answered>, mode: Mode, tokens: string -> set<string>)
    requires AllValid(items) && items != []
    ensures var n := |items| - 1;
      && AllValid(items[..n]) && Valid(items[n])
      && var (before, s) := (SumsOf(items[..n], mode, tokens), EvaluateCase(items[n], mode, tokens).value);
         SumsOf(items, mode, tokens) == Sums(
           before.answered + (if items[n].ok then 1 else 0),
           before.generated + (if items[n].case_.generated then 1 else 0), before.score + s.score,
           before.recall + s.recall, before.required + s.required, before.cited + s.cited,
           before.contradictions + s.forbidden)
  {
    assert items[|items| - 1] in items;
    hide EvaluateCase, Valid;
  }

  lemma NoSums(mode: Mode, tokens: string -> set<string>)
    ensures SumsOf([], mode, tokens) == Sums(0, 0, 0.0, 0.0, 0, 0, 0)
  {
  }

  /** Each total of the one pass is the sum of what the cases report. */
  lemma {:induction false} TallyTells(items: seq<Answered>, mode: Mode, tokens: string -> set<string>)
    requires AllValid(items)
    ensures var t, s := Tally(items, mode, tokens), SumsOf(items, mode, tokens);
      && t.scored == |items| && t.answered == s.answered && t.generated == s.generated && t.quality == s.score
      && t.recall == s.recall && t.required == s.required && t.cited == s.cited
      && t.contradictions == s.contradictions && t.latencies == Latencies(items)
  {
    hide SumsOf, EvaluateCase;
    if items == [] {
      NoSums(mode, tokens);
    } else {
      var n := |items| - 1;
      assert items[n] in items;
      TallyTells(items[..n], mode, tokens);
      SumsStep(items, mode, tokens);
      StatusIsKept(items[n], mode, tokens);
    }
  }

  lemma StatusIsKept(a: Answered, mode: Mode, tokens: string -> set<string>)
    requires Valid(a)
    ensures var s := EvaluateCase(a, mode, tokens).value;
      s.ok == a.ok && s.generated == a.case_.generated && s.latency == a.latency
  {
    hide Round4, AnswerScore, Recall, Hits, CountPresent, Ratio;
  }

  /** What the caller passes along beside the cases. */
  datatype Account = Account(
    totalCostUsd: Option<real>, costComplete: bool, inputTokens: int, outputTokens: int, ingestMs: int, queryMs: int,
    workspaceBytes: Option<int>, burden: Option<real>, corpusHash: Option<string>)

  /** A total exactly with a complete cost, and nothing negative or malformed. */
  predicate Consistent(c: Account) {
    && (c.costComplete <==> c.totalCostUsd.Some?)
    && (c.totalCostUsd.Some? ==> c.totalCostUsd.value >= 0.0)
    && c.inputTokens >= 0 && c.outputTokens >= 0 && c.ingestMs >= 0 && c.queryMs >= 0
    && (c.workspaceBytes.Some? ==> c.workspaceBytes.value >= 0)
    && (c.burden.Some? ==> c.burden.value >= 0.0)
    && (c.corpusHash.Some? ==> IsHash(c.corpusHash.value))
  }

  /** What makes an account inconsistent, one thing at a time. */
  lemma InconsistentIff(c: Account)
    ensures !Consistent(c) <==>
      || (c.costComplete && c.totalCostUsd == None) || (!c.costComplete && c.totalCostUsd != None)
      || (exists usd :: c.totalCostUsd == Some(usd) && usd < 0.0)
      || c.inputTokens < 0 || c.outputTokens < 0 || c.ingestMs < 0 || c.queryMs < 0
      || (exists bytes :: c.workspaceBytes == Some(bytes) && bytes < 0)
      || (exists burden :: c.burden == Some(burden) && burden < 0.0)
      || (exists hash :: c.corpusHash == Some(hash) && !IsHash(hash))
  {
    hide IsHash;
  }

  predicate IsHash(s: string) { |s| == 64 && forall i :: 0 <= i < |s| ==> '0' <= s[i] <= '9' || 'a' <= s[i] <= 'f' }

  /** The ranges the aggregate's own fields must lie in. */
  predicate InRange(r: Aggregate) {
    && 0.0 <= r.quality <= 100.0 && 0.0 <= r.successRate <= 1.0 && 0.0 <= r.sourceSupport <= 1.0
    && (r.p50.Some? ==> r.p50.value >= 0.0) && (r.p95.Some? ==> r.p95.value >= 0.0)
    && r.partialFailures >= 0
  }

  /** One pass over the cases, and the contract of the result: it raises exactly when a case cannot be
      scored or the account it is given is inconsistent. */
  method EvaluateCandidate(items: seq<Answered>, account: Account, mode: Mode, tokens: string -> set<string>)
    returns (r: Option<Aggregate>)
    ensures r.Some? <==> AllValid(items) && Consistent(account)
    ensures r.Some? ==> r.value == Summary(Tally(items, mode, tokens), mode)
  {
    var t := Totals(0, 0, 0, 0.0, 0, 0, 0, 0.0, []);
    hide EvaluateCase, Percentile, Round4, Support, Valid, Consistent, InRange, Summary;
    for i := 0 to |items|
      invariant AllValid(items[..i])
      invariant t == Tally(items[..i], mode, tokens)
    {
      var result := EvaluateCase(items[i], mode, tokens);
      if result.None? {
        assert items[i] in items;
        return None;
      }
      assert items[..i + 1][..i] == items[..i];
      assert forall a :: a in items[..i + 1] ==> a in items[..i] || a == items[i];
      t := Plus(t, result.value);
    }
    assert items[..|items|] == items;
    AggregateInRange(items, mode, tokens);
    var aggregate := Summary(t, mode);
    if !InRange(aggregate) || !Consistent(account) { return None; }
    return Some(aggregate);
  }

  // ----- what the aggregates promise -----

  predicate Bounded(t: Totals, mode: Mode) {
    && t.answered <= t.scored && t.cited <= t.required
    && 0.0 <= t.quality <= 100.0 * t.scored as real && 0.0 <= t.recall <= 100.0 * t.scored as real
    && (mode == RETRIEVAL_ONLY ==> t.quality == t.recall)
    && (forall l :: l in t.latencies ==> l > 0)
  }

  lemma PlusBounds(t: Totals, s: Score, mode: Mode)
    requires Bounded(t, mode)
    requires 0.0 <= s.score <= 100.0 && 0.0 <= s.recall <= 100.0 && s.cited <= s.required
    requires mode == RETRIEVAL_ONLY ==> s.score == s.recall
    ensures Bounded(Plus(t, s), mode)
  {
  }

  lemma {:induction false} TallyBounds(items: seq<Answered>, mode: Mode, tokens: string -> set<string>)
    requires AllValid(items)
    ensures Tally(items, mode, tokens).scored == |items| && Bounded(Tally(items, mode, tokens), mode)
  {
    if items != [] {
      var n := |items| - 1;
      assert items[n] in items;
      TallyBounds(items[..n], mode, tokens);
      CaseScoreBounds(items[n], mode, tokens);
      hide EvaluateCase;
      PlusBounds(Tally(items[..n], mode, tokens), ScoreOf(items[n], mode, tokens), mode);
    }
  }

  /** Every aggregate lies in the ranges its contract demands, percentiles included. */
  lemma AggregateInRange(items: seq<Answered>, mode: Mode, tokens: string -> set<string>)
    requires AllValid(items)
    ensures var r := Summary(Tally(items, mode, tokens), mode);
      && InRange(r) && r.partialFailures <= r.scored == |items|
      && (r.p50.Some? ==> r.p95.Some? && 0.0 < r.p50.value <= r.p95.value)
  {
    hide *;
    TallyBounds(items, mode, tokens);
    SummaryInRange(Tally(items, mode, tokens), mode);
  }

  lemma SummaryInRange(t: Totals, mode: Mode)
    requires Bounded(t, mode)
    ensures var r := Summary(t, mode);
      && InRange(r) && r.partialFailures <= r.scored == t.scored
      && (r.p50.Some? ==> r.p95.Some? && 0.0 < r.p50.value <= r.p95.value)
  {
    hide Round4, Percentile, Mean, Support;
    TotalsInRange(t, mode);
    PercentilesAreOrdered(t.latencies, t.latencies);
    PercentileIsPositive(t.latencies);
  }

  lemma PercentileIsPositive(values: seq<int>)
    requires values != [] ==> forall v :: v in values ==> v > 0
    ensures values != [] ==> Percentile(values, 50).value > 0.0
  {
    if |values| == 1 { assert values[0] in values; }
    if |values| > 1 {
      OrderedForgetsArrival(values, values);
      OrderedMembers(values);
      hide Ordered, Quantile, Sorted;
      QuantileMonotone(Ordered(values), 50, 50);
      assert Ordered(values)[0] in Ordered(values);
    }
  }

  lemma OrderedMembers(values: seq<int>)
    ensures forall v :: v in Ordered(values) <==> v in values
  {
    SortMembers(values, IntLe);
  }

  lemma TotalsInRange(t: Totals, mode: Mode)
    requires Bounded(t, mode)
    ensures 0.0 <= Round4(Mean(t.quality, t.scored)) <= 100.0
    ensures 0.0 <= Mean(t.answered as real, t.scored) <= 1.0
    ensures 0.0 <= Support(t, mode) <= 1.0
  {
    MeanInRange(t.quality, t.scored, 100);
    RoundStaysBetween(Mean(t.quality, t.scored), 0, 100);
    MeanInRange(t.answered as real, t.scored, 1);
    if t.scored > 0 { Quotient(t.recall, 100 * t.scored, 1); }
    if t.required > 0 { Quotient(t.cited as real, t.required, 1); }
    hide Mean, Round4;
  }

  lemma MeanInRange(x: real, n: nat, high: nat)
    requires 0.0 <= x <= high as real * n as real
    ensures 0.0 <= Mean(x, n) <= high as real
  {
    if n > 0 { Quotient(x, n, high); }
  }

  lemma Quotient(x: real, n: nat, high: nat)
    requires n > 0 && 0.0 <= x <= high as real * n as real
    ensures 0.0 <= x / n as real <= high as real
  {
    var q, h, d := x / n as real, high as real, n as real;
    assert q * d == x;
    assert (q - h) * d == x - h * d && (-q) * d == -x;
    if q < 0.0 { Positive(-q, d); }
    if q > h { Positive(q - h, d); }
  }

  lemma Positive(x: real, y: real)
    requires x > 0.0 && y > 0.0
    ensures x * y > 0.0
  {
  }

  /** The aggregate, said of the cases: means of what they scored, shares of those answered, and counts. */
  lemma AggregateTells(items: seq<Answered>, mode: Mode, tokens: string -> set<string>)
    requires AllValid(items) && items != []
    ensures var r, s := Summary(Tally(items, mode, tokens), mode), SumsOf(items, mode, tokens);
      && r.statusOk && r.scored == |items| && r.answered == s.answered && r.partialFailures == |items| - s.answered
      && r.quality == Round4(s.score / |items| as real) && r.successRate == s.answered as real / |items| as real
      && r.generated == s.generated && r.contradictions == s.contradictions
      && r.p50 == Percentile(Latencies(items), 50) && r.p95 == Percentile(Latencies(items), 95)
      && (mode == RETRIEVAL_ONLY ==> r.sourceSupport == s.recall / (100 * |items|) as real)
      && (mode == ANSWER_AWARE ==>
            r.sourceSupport == if s.required == 0 then 0.0 else s.cited as real / s.required as real)
  {
    TallyTells(items, mode, tokens);
    hide Tally, SumsOf, Percentile, Round4, Latencies;
  }

  /** With retrieval-only scoring the quality floor already implies the source-support gate: support is
      the mean the quality was rounded from, so it is within 0.0000005 of a hundredth of it. */
  lemma QualityIsSupport(items: seq<Answered>, tokens: string -> set<string>)
    requires AllValid(items) && items != []
    ensures var r := Summary(Tally(items, RETRIEVAL_ONLY, tokens), RETRIEVAL_ONLY);
      && -0.0000005 <= r.sourceSupport - r.quality / 100.0 <= 0.0000005
      && (r.quality >= Decision.QUALITY_FLOOR ==> r.sourceSupport >= Decision.MIN_SOURCE_SUPPORT_RATE)
  {
    TallyBounds(items, RETRIEVAL_ONLY, tokens);
    var t := Tally(items, RETRIEVAL_ONLY, tokens);
    hide Tally, Round4, Percentile;
    HundredthOfMean(t.quality, t.scored);
  }

  lemma HundredthOfMean(x: real, n: nat)
    requires n > 0
    ensures x / (100 * n) as real == x / n as real / 100.0
  {
    var q := x / n as real;
    assert q * n as real == x;
    assert (100 * n) as real == 100.0 * n as real;
    assert q / 100.0 * (100 * n) as real == x;
  }

  /** No partial failure means every case was answered, so the success gate is implied too. */
  lemma NoFailureMeansFullSuccess(items: seq<Answered>, mode: Mode, tokens: string -> set<string>)
    requires AllValid(items) && items != []
    ensures var r := Summary(Tally(items, mode, tokens), mode);
      && (r.partialFailures == 0 <==> r.successRate == 1.0)
      && (r.partialFailures == 0 ==> r.successRate >= Decision.MIN_SUCCESS_RATE)
  {
    TallyBounds(items, mode, tokens);
    var t := Tally(items, mode, tokens);
    hide Tally, Round4, Percentile, Support;
    WholeShare(t.answered, t.scored);
  }

  lemma WholeShare(k: nat, n: nat)
    requires n > 0
    ensures k as real / n as real == 1.0 <==> k == n
  {
    var q := k as real / n as real;
    assert q * n as real == k as real;
  }

  // ----- arrival order -----

  predicate SameTotals(t: Totals, u: Totals) {
    t.(latencies := []) == u.(latencies := []) && multiset(t.latencies) == multiset(u.latencies)
  }

  lemma PlusCommutes(t: Totals, a: Score, b: Score)
    ensures SameTotals(Plus(Plus(t, a), b), Plus(Plus(t, b), a))
  {
  }

  lemma SameAsItself(t: Totals)
    ensures SameTotals(t, t)
  {
  }

  lemma SameFlipped(t: Totals, u: Totals)
    requires SameTotals(t, u)
    ensures SameTotals(u, t)
  {
  }

  lemma SameChain(t: Totals, u: Totals, v: Totals)
    requires SameTotals(t, u) && SameTotals(u, v)
    ensures SameTotals(t, v)
  {
  }

  lemma PlusKeepsSame(t: Totals, u: Totals, s: Score)
    requires SameTotals(t, u)
    ensures SameTotals(Plus(t, s), Plus(u, s))
  {
  }

  function Without(items: seq<Answered>, i: nat): (r: seq<Answered>)
    requires i < |items|
  {
    items[..i] + items[i + 1..]
  }

  // Removing an element first or the last one first comes to the same.
  lemma WithoutShape(items: seq<Answered>, i: nat)
    requires AllValid(items) && i < |items|
    ensures Valid(items[i]) && AllValid(Without(items, i)) && |Without(items, i)| == |items| - 1
    ensures Without(items, |items| - 1) == items[..|items| - 1]
    ensures i < |items| - 1 ==>
      && Without(items, i) != [] && Without(items, i)[|items| - 2] == items[|items| - 1]
      && Without(items, i)[..|items| - 2] == Without(items[..|items| - 1], i)
      && items[..|items| - 1][i] == items[i]
  {
    assert items[i] in items;
    assert forall a :: a in Without(items, i) ==> a in items;
  }

  lemma TallyUnfolds(items: seq<Answered>, mode: Mode, tokens: string -> set<string>)
    requires AllValid(items) && items != []
    ensures AllValid(items[..|items| - 1]) && Valid(items[|items| - 1])
    ensures Tally(items, mode, tokens)
         == Plus(Tally(items[..|items| - 1], mode, tokens), ScoreOf(items[|items| - 1], mode, tokens))
  {
  }

  lemma {:induction false} TallyRemove(items: seq<Answered>, i: nat, mode: Mode, tokens: string -> set<string>)
    requires AllValid(items) && i < |items|
    ensures AllValid(Without(items, i)) && Valid(items[i])
    ensures SameTotals(Tally(items, mode, tokens),
      Plus(Tally(Without(items, i), mode, tokens), ScoreOf(items[i], mode, tokens)))
    decreases |items|
  {
    hide *;
    var n := |items| - 1;
    WithoutShape(items, i);
    WithoutShape(items, n);
    TallyUnfolds(items, mode, tokens);
    if i == n {
      SameAsItself(Tally(items, mode, tokens));
    } else {
      TallyRemove(items[..n], i, mode, tokens);
      var t := Tally(Without(items[..n], i), mode, tokens);
      var x, last := ScoreOf(items[i], mode, tokens), ScoreOf(items[n], mode, tokens);
      TallyUnfolds(Without(items, i), mode, tokens);
      PlusKeepsSame(Tally(items[..n], mode, tokens), Plus(t, x), last);
      PlusCommutes(t, x, last);
      SameChain(Tally(items, mode, tokens), Plus(Plus(t, x), last), Plus(Plus(t, last), x));
    }
  }

  lemma {:induction false} TallyIgnoresOrder(a: seq<Answered>, b: seq<Answered>, mode: Mode,
    tokens: string -> set<string>)
    requires AllValid(a) && multiset(a) == multiset(b)
    ensures AllValid(b)
    ensures SameTotals(Tally(a, mode, tokens), Tally(b, mode, tokens))
  {
    MultisetMembers(a, b);
    if a != [] {
      var n := |a| - 1;
      assert a[n] in a;
      var i :| 0 <= i < |b| && b[i] == a[n];
      RemoveAtMultiset(a, n);
      RemoveAtMultiset(b, i);
      assert a[..n] + a[n + 1..] == a[..n] && Without(b, i) == b[..i] + b[i + 1..];
      TallyRemove(b, i, mode, tokens);
      hide EvaluateCase, Plus, SameTotals;
      var rest := Without(b, i);
      assert AllValid(a[..n]);
      TallyIgnoresOrder(a[..n], rest, mode, tokens);
      var x := ScoreOf(a[n], mode, tokens);
      PlusKeepsSame(Tally(a[..n], mode, tokens), Tally(rest, mode, tokens), x);
      SameFlipped(Tally(b, mode, tokens), Plus(Tally(rest, mode, tokens), x));
      SameChain(Tally(a, mode, tokens), Plus(Tally(rest, mode, tokens), x), Tally(b, mode, tokens));
    }
  }

  /** The aggregate of a candidate does not depend on the order its cases were run in. */
  lemma AggregateIgnoresOrder(a: seq<Answered>, b: seq<Answered>, mode: Mode, tokens: string -> set<string>)
    requires AllValid(a) && multiset(a) == multiset(b)
    ensures AllValid(b)
    ensures Summary(Tally(a, mode, tokens), mode) == Summary(Tally(b, mode, tokens), mode)
  {
    TallyIgnoresOrder(a, b, mode, tokens);
    PercentilesAreOrdered(Tally(a, mode, tokens).latencies, Tally(b, mode, tokens).latencies);
    hide Tally, Percentile, Round4;
  }
}
