/** Choosing the recommended candidate: independent gates, then quality, cost, latency, burden, id. */
module Decision {
  import opened Options
  import opened Ordering

  const QUALITY_FLOOR := 60.0
  const MIN_SCORED_CASES := 20
  const MIN_SUCCESS_RATE := 0.9
  const MIN_SOURCE_SUPPORT_RATE := 0.5

  datatype CostStatus = COMPLETE | INCOMPLETE | UNAVAILABLE

  datatype NativeResult = NativeResult(recommendationEligible: bool, reasons: seq<string>)

  datatype Evaluation = Evaluation(
    id: string, statusOk: bool, scoredCases: nat, quality: real, successRate: real, sourceSupport: real,
    cost: Option<real>, costStatus: CostStatus, usageMeasured: bool, p95: Option<real>, burden: Option<real>,
    validPin: bool, hasCorpusHash: bool, leakage: bool, partialFailures: nat, override: Option<bool>,
    native: Option<NativeResult>)

  datatype Reason =
    | MARKED_INELIGIBLE | TOO_FEW_CASES | LOW_SUCCESS | LOW_QUALITY | LOW_SUPPORT | BAD_PIN | NO_CORPUS_HASH | LEAKAGE
    | NATIVE(detail: string) | USAGE_NOT_MEASURED | COST_NOT_COMPLETE | COST_MISSING | BAD_STATUS | PARTIAL_FAILURES
    | EMBEDDING

  /** The gate behind each reason, stated on its own. */
  predicate Blocks(r: Reason, c: Evaluation, floor: real, embeddingOk: bool) {
    match r
    case MARKED_INELIGIBLE => c.override == Some(false)
    case TOO_FEW_CASES => c.scoredCases < MIN_SCORED_CASES
    case LOW_SUCCESS => c.successRate < MIN_SUCCESS_RATE
    case LOW_QUALITY => c.quality < floor
    case LOW_SUPPORT => c.sourceSupport < MIN_SOURCE_SUPPORT_RATE
    case BAD_PIN => !c.validPin
    case NO_CORPUS_HASH => !c.hasCorpusHash
    case LEAKAGE => c.leakage
    case NATIVE(detail) =>
      && c.native.Some? && !c.native.value.recommendationEligible
      && detail in (if c.native.value.reasons == [] then [""] else c.native.value.reasons)
    case USAGE_NOT_MEASURED => !c.usageMeasured
    case COST_NOT_COMPLETE => c.costStatus != COMPLETE
    case COST_MISSING => c.costStatus == COMPLETE && c.cost.None?
    case BAD_STATUS => !c.statusOk
    case PARTIAL_FAILURES => c.partialFailures > 0
    case EMBEDDING => !embeddingOk
  }

  predicate AboutScore(r: Reason) {
    match r
    case MARKED_INELIGIBLE | TOO_FEW_CASES | LOW_SUCCESS | LOW_QUALITY | LOW_SUPPORT | BAD_PIN | NO_CORPUS_HASH
       | LEAKAGE => true
    case _ => false
  }

  lemma BlocksLocally(r: Reason, c: Evaluation, floor: real, embeddingOk: bool)
    ensures AboutScore(r) ==> Blocks(r, c, floor, embeddingOk) == Blocks(r, c, floor, true)
    ensures !AboutScore(r) ==> Blocks(r, c, floor, embeddingOk) == Blocks(r, c, 0.0, embeddingOk)
  {
  }

  predicate ScoreEligible(c: Evaluation, floor: real) {
    && c.override != Some(false)
    && c.scoredCases >= MIN_SCORED_CASES && c.successRate >= MIN_SUCCESS_RATE
    && c.quality >= floor && c.sourceSupport >= MIN_SOURCE_SUPPORT_RATE
    && c.validPin && c.hasCorpusHash && !c.leakage
  }

  predicate AccountEligible(c: Evaluation, embeddingOk: bool) {
    && c.usageMeasured && c.costStatus == COMPLETE && c.cost.Some?
    && c.statusOk && c.partialFailures == 0 && embeddingOk
  }

  /** Every gate is open. */
  predicate Eligible(c: Evaluation, floor: real, embeddingOk: bool) {
    && ScoreEligible(c, floor)
    && (c.native.Some? ==> c.native.value.recommendationEligible)
    && AccountEligible(c, embeddingOk)
  }

  /** The gates open at their bounds: twenty cases, nine in ten answered, quality at the floor and half the support
      are enough, and anything less is not. */
  lemma BoundsAreEnough(c: Evaluation, floor: real)
    requires c.scoredCases == 20 && c.successRate == 0.9 && c.quality == floor && c.sourceSupport == 0.5
    requires c.override != Some(false) && c.validPin && c.hasCorpusHash && !c.leakage
    requires c.native.None? || c.native.value.recommendationEligible
    requires c.usageMeasured && c.costStatus == COMPLETE && c.cost.Some? && c.statusOk && c.partialFailures == 0
    ensures Eligible(c, floor, true) && !Eligible(c, floor, false)
    ensures !Eligible(c.(scoredCases := 19), floor, true)
    ensures forall less :: less < 0.9 ==> !Eligible(c.(successRate := less), floor, true)
    ensures forall less :: less < floor ==> !Eligible(c.(quality := less), floor, true)
    ensures forall less :: less < 0.5 ==> !Eligible(c.(sourceSupport := less), floor, true)
  {
  }

  function NativeReasons(details: seq<string>): (r: seq<Reason>)
    ensures |r| == |details|
    ensures forall x :: x in r <==> x.NATIVE? && x.detail in details
  {
    if details == [] then [] else [NATIVE(details[0])] + NativeReasons(details[1..])
  }

  method Note(before: seq<Reason>, holds: bool, reason: Reason) returns (after: seq<Reason>)
    ensures forall r :: r in after <==> r in before || (holds && r == reason)
    ensures after == [] <==> before == [] && !holds
  {
    after := if holds then before + [reason] else before;
  }

  // The reasons about the score, the pin, the corpus and leakage.
  method ScoreReasons(c: Evaluation, floor: real) returns (reasons: seq<Reason>)
    ensures forall r :: r in reasons <==> AboutScore(r) && Blocks(r, c, floor, true)
    ensures reasons == [] <==> ScoreEligible(c, floor)
  {
    reasons := [];
    reasons := Note(reasons, c.override == Some(false), MARKED_INELIGIBLE);
    reasons := Note(reasons, c.scoredCases < MIN_SCORED_CASES, TOO_FEW_CASES);
    reasons := Note(reasons, c.successRate < MIN_SUCCESS_RATE, LOW_SUCCESS);
    reasons := Note(reasons, c.quality < floor, LOW_QUALITY);
    reasons := Note(reasons, c.sourceSupport < MIN_SOURCE_SUPPORT_RATE, LOW_SUPPORT);
    reasons := Note(reasons, !c.validPin, BAD_PIN);
    reasons := Note(reasons, !c.hasCorpusHash, NO_CORPUS_HASH);
    reasons := Note(reasons, c.leakage, LEAKAGE);
  }

  // The reasons about usage, cost, status and the embedding.
  method AccountReasons(c: Evaluation, embeddingOk: bool) returns (reasons: seq<Reason>)
    ensures forall r :: r in reasons <==> !AboutScore(r) && !r.NATIVE? && Blocks(r, c, 0.0, embeddingOk)
    ensures reasons == [] <==> AccountEligible(c, embeddingOk)
  {
    reasons := [];
    reasons := Note(reasons, !c.usageMeasured, USAGE_NOT_MEASURED);
    reasons := Note(reasons, c.costStatus != COMPLETE, COST_NOT_COMPLETE);
    reasons := Note(reasons, c.costStatus == COMPLETE && c.cost.None?, COST_MISSING);
    reasons := Note(reasons, !c.statusOk, BAD_STATUS);
    reasons := Note(reasons, c.partialFailures > 0, PARTIAL_FAILURES);
    reasons := Note(reasons, !embeddingOk, EMBEDDING);
  }

  /** Every independent reason against a candidate is reported, and none that does not hold. */
  method EligibilityReasons(c: Evaluation, floor: real, embeddingOk: bool) returns (reasons: seq<Reason>)
    ensures forall r :: r in reasons <==> Blocks(r, c, floor, embeddingOk)
    ensures reasons == [] <==> Eligible(c, floor, embeddingOk)
  {
    var score := ScoreReasons(c, floor);
    var native: seq<Reason> := [];
    if c.native.Some? && !c.native.value.recommendationEligible {
      native := NativeReasons(if c.native.value.reasons == [] then [""] else c.native.value.reasons);
    }
    var account := AccountReasons(c, embeddingOk);
    assert forall r :: r in native <==> r.NATIVE? && Blocks(r, c, floor, embeddingOk);
    forall r ensures r in score + native + account <==> Blocks(r, c, floor, embeddingOk) {
      BlocksLocally(r, c, floor, embeddingOk);
    }
    return score + native + account;
  }

  // ----- the lexicographic key -----

  /** Strictly smaller, an absent value counting as infinite. */
  predicate OptLess(a: Option<real>, b: Option<real>) {
    a.Some? && (b.None? || a.value < b.value)
  }

  /** `(cost, p95, burden, id)` of `a` is at most that of `b`. */
  predicate KeyLe(a: Evaluation, b: Evaluation) {
    || OptLess(a.cost, b.cost)
    || (a.cost == b.cost && (
        || OptLess(a.p95, b.p95)
        || (a.p95 == b.p95 && (
            || OptLess(a.burden, b.burden)
            || (a.burden == b.burden && StrLe(a.id, b.id))))))
  }

  lemma KeyLeOrder()
    ensures TotalPreorder(KeyLe)
    ensures forall a, b :: KeyLe(a, b) && KeyLe(b, a) ==> a.id == b.id
  {
    StrLeOrder();
    forall a, b ensures KeyLe(a, b) || KeyLe(b, a) { assert StrLe(a.id, b.id) || StrLe(b.id, a.id); }
    forall a, b, c | KeyLe(a, b) && KeyLe(b, c) ensures KeyLe(a, c) {
      assert StrLe(a.id, b.id) && StrLe(b.id, c.id) ==> StrLe(a.id, c.id);
    }
    forall a, b | KeyLe(a, b) && KeyLe(b, a) ensures a.id == b.id {
      assert StrLe(a.id, b.id) && StrLe(b.id, a.id) ==> a.id == b.id;
    }
  }

  /** A lower cost is preferred whatever the rest is, then a lower p95, then a lower burden, then the id; a missing
      value loses against any value. */
  lemma SmallerIsPreferred(a: Evaluation, b: Evaluation)
    ensures a.cost.Some? && (b.cost.None? || a.cost.value < b.cost.value) ==> KeyLe(a, b) && !KeyLe(b, a)
    ensures a.cost == b.cost && a.p95.Some? && (b.p95.None? || a.p95.value < b.p95.value) ==>
      KeyLe(a, b) && !KeyLe(b, a)
    ensures a.cost == b.cost && a.p95 == b.p95 && a.burden.Some? && (b.burden.None? || a.burden.value < b.burden.value)
      ==> KeyLe(a, b) && !KeyLe(b, a)
    ensures a.cost == b.cost && a.p95 == b.p95 && a.burden == b.burden ==> (KeyLe(a, b) <==> StrLe(a.id, b.id))
  {
  }

  // ----- the choice -----

  datatype Verdict = NoRecommendation | Recommend(id: string) | EmptyBand

  /** `best` is the greatest quality among the eligible candidates. */
  ghost predicate BestQuality(candidates: seq<Evaluation>, floor: real, embeddingOk: bool, best: real) {
    && (exists c :: c in candidates && Eligible(c, floor, embeddingOk) && c.quality == best)
    && (forall c :: c in candidates && Eligible(c, floor, embeddingOk) ==> c.quality <= best)
  }

  predicate InBand(c: Evaluation, candidates: seq<Evaluation>, floor: real, embeddingOk: bool, best: real,
    epsilon: real) {
    c in candidates && Eligible(c, floor, embeddingOk) && best - c.quality <= epsilon
  }

  /** `w` is eligible, within epsilon of the best eligible quality, and has the least key there. */
  ghost predicate Wins(w: Evaluation, candidates: seq<Evaluation>, floor: real, embeddingOk: bool, epsilon: real) {
    exists best ::
      && BestQuality(candidates, floor, embeddingOk, best)
      && InBand(w, candidates, floor, embeddingOk, best, epsilon)
      && forall c :: InBand(c, candidates, floor, embeddingOk, best, epsilon) ==> KeyLe(w, c)
  }

  predicate AnyEligible(candidates: seq<Evaluation>, floor: real, embeddingOk: bool) {
    exists c :: c in candidates && Eligible(c, floor, embeddingOk)
  }

  function Ids(candidates: seq<Evaluation>): (r: seq<string>) {
    if candidates == [] then [] else Ids(candidates[..|candidates| - 1]) + [candidates[|candidates| - 1].id]
  }

  function Eligibles(candidates: seq<Evaluation>, floor: real, embeddingOk: bool): (r: seq<Evaluation>)
    ensures forall c :: c in r <==> c in candidates && Eligible(c, floor, embeddingOk)
  {
    if candidates == [] then []
    else
      var last := candidates[|candidates| - 1];
      Eligibles(candidates[..|candidates| - 1], floor, embeddingOk) + if Eligible(last, floor, embeddingOk) then [last]
        else []
  }

  lemma EligiblesAppend(s: seq<Evaluation>, c: Evaluation, floor: real, embeddingOk: bool)
    ensures Eligibles(s + [c], floor, embeddingOk)
         == Eligibles(s, floor, embeddingOk) + if Eligible(c, floor, embeddingOk) then [c] else []
  {
    assert (s + [c])[..|s + [c]| - 1] == s;
  }

  lemma NoneEligible(floor: real, embeddingOk: bool)
    ensures Eligibles([], floor, embeddingOk) == []
  {
  }

  /** Some candidate of that id is blocked by exactly those reasons. */
  ghost predicate ReasonsFit(
    candidates: seq<Evaluation>, id: string, reasons: seq<Reason>, floor: real, embeddingOk: bool)
  {
    exists c :: c in candidates && c.id == id && forall r :: r in reasons <==> Blocks(r, c, floor, embeddingOk)
  }

  lemma FitReasons(candidates: seq<Evaluation>, c: Evaluation, reasons: seq<Reason>, floor: real, embeddingOk: bool)
    requires c in candidates && forall r :: r in reasons <==> Blocks(r, c, floor, embeddingOk)
    ensures ReasonsFit(candidates, c.id, reasons, floor, embeddingOk)
  {
    hide Blocks;
  }

  method Partition(candidates: seq<Evaluation>, floor: real, embeddingOk: bool)
    returns (eligible: seq<Evaluation>, ineligible: map<string, seq<Reason>>)
    ensures eligible == Eligibles(candidates, floor, embeddingOk)
    ensures forall id :: id in ineligible <==>
      exists c :: c in candidates && c.id == id && !Eligible(c, floor, embeddingOk)
    ensures forall id :: id in ineligible ==> ineligible[id] != []
    ensures forall id :: id in ineligible ==> ReasonsFit(candidates, id, ineligible[id], floor, embeddingOk)
  {
    hide *;
    eligible, ineligible := [], map[];
    assert candidates[..0] == [];
    NoneEligible(floor, embeddingOk);
    for i := 0 to |candidates|
      invariant eligible == Eligibles(candidates[..i], floor, embeddingOk)
      invariant forall id :: id in ineligible <==>
        exists c :: c in candidates[..i] && c.id == id && !Eligible(c, floor, embeddingOk)
      invariant forall id :: id in ineligible ==> ineligible[id] != []
      invariant forall id :: id in ineligible ==> ReasonsFit(candidates, id, ineligible[id], floor, embeddingOk)
    {
      var c := candidates[i];
      assert candidates[..i + 1] == candidates[..i] + [c];
      assert forall x :: x in candidates[..i + 1] <==> x in candidates[..i] || x == c;
      EligiblesAppend(candidates[..i], c, floor, embeddingOk);
      var reasons := EligibilityReasons(c, floor, embeddingOk);
      FitReasons(candidates, c, reasons, floor, embeddingOk);
      if reasons != [] { ineligible := ineligible[c.id := reasons]; }
      else { eligible := eligible + [c]; }
    }
    assert candidates[..|candidates|] == candidates;
  }

  method MaxQuality(eligible: seq<Evaluation>) returns (best: real)
    requires eligible != []
    ensures exists c :: c in eligible && c.quality == best
    ensures forall c :: c in eligible ==> c.quality <= best
  {
    best := eligible[0].quality;
    for i := 1 to |eligible|
      invariant exists c :: c in eligible && c.quality == best
      invariant forall k :: 0 <= k < i ==> eligible[k].quality <= best
    {
      if eligible[i].quality > best { best := eligible[i].quality; }
    }
  }

  ghost predicate FirstLeast(close: seq<Evaluation>, k: nat) {
    && k < |close| && (forall j :: 0 <= j < |close| ==> KeyLe(close[k], close[j]))
    && forall j :: 0 <= j < k ==> !KeyLe(close[j], close[k])
  }

  /** The first entry with the least key. */
  method MinKey(close: seq<Evaluation>) returns (w: Evaluation)
    requires close != []
    ensures w in close && forall c :: c in close ==> KeyLe(w, c)
    ensures exists k: nat :: FirstLeast(close, k) && w == close[k]
  {
    KeyLeOrder();
    w := close[0];
    ghost var k: nat := 0;
    hide OptLess, KeyLe;
    for i := 1 to |close|
      invariant 0 <= k < i && w == close[k]
      invariant forall j :: 0 <= j < i ==> KeyLe(w, close[j])
      invariant forall j :: 0 <= j < k ==> !KeyLe(close[j], w)
    {
      if !KeyLe(w, close[i]) {
        assert KeyLe(close[i], w) && KeyLe(close[i], close[i]);
        w, k := close[i], i;
      }
    }
    assert FirstLeast(close, k);
  }

  /** No recommendation exactly when nobody is eligible; otherwise the winner's id. A negative epsilon
      empties the band, where `min` raises. */
  method SelectWinner(candidates: seq<Evaluation>, floor: real, embeddingOk: bool, epsilon: real)
    returns (verdict: Verdict, eligible: seq<string>, ineligible: map<string, seq<Reason>>)
    ensures verdict == NoRecommendation <==> !AnyEligible(candidates, floor, embeddingOk)
    ensures verdict == EmptyBand <==> epsilon < 0.0 && AnyEligible(candidates, floor, embeddingOk)
    ensures verdict.Recommend? ==> exists w :: Wins(w, candidates, floor, embeddingOk, epsilon) && w.id == verdict.id
    ensures !verdict.EmptyBand? ==> eligible == Ids(Eligibles(candidates, floor, embeddingOk))
    ensures candidates != [] && !verdict.EmptyBand? ==> forall id ::
      id in ineligible <==> exists c :: c in candidates && c.id == id && !Eligible(c, floor, embeddingOk)
    ensures forall id :: id in ineligible ==>
      ineligible[id] != [] && ReasonsFit(candidates, id, ineligible[id], floor, embeddingOk)
  {
    hide *;
    SelectionFacts(candidates, floor, embeddingOk);
    NoneEligible(floor, embeddingOk);
    if candidates == [] { return NoRecommendation, [], map[]; }
    var good, bad := Partition(candidates, floor, embeddingOk);
    if good == [] { return NoRecommendation, [], bad; }
    var best := MaxQuality(good);
    var close := CloseTo(good, best, epsilon);
    if close == [] {
      NobodyClose(good, best, epsilon);
      return EmptyBand, [], map[];
    }
    var w := MinKey(close);
    BandWinner(candidates, good, close, w, floor, embeddingOk, best, epsilon);
    return Recommend(w.id), Ids(good), bad;
  }

  lemma SelectionFacts(candidates: seq<Evaluation>, floor: real, embeddingOk: bool)
    ensures AnyEligible(candidates, floor, embeddingOk) <==> Eligibles(candidates, floor, embeddingOk) != []
    ensures Ids([]) == []
  {
    hide Eligible;
    var good := Eligibles(candidates, floor, embeddingOk);
    if good != [] { assert good[0] in good; }
  }

  /** The candidates within epsilon of the best. */
  method CloseTo(good: seq<Evaluation>, best: real, epsilon: real) returns (close: seq<Evaluation>)
    ensures forall c :: c in close <==> c in good && best - c.quality <= epsilon
  {
    close := [];
    for i := 0 to |good|
      invariant forall c :: c in close <==> c in good[..i] && best - c.quality <= epsilon
    {
      assert forall c :: c in good[..i + 1] <==> c in good[..i] || c == good[i];
      if best - good[i].quality <= epsilon { close := close + [good[i]]; }
    }
    assert good[..|good|] == good;
  }

  lemma NobodyClose(good: seq<Evaluation>, best: real, epsilon: real)
    requires exists c :: c in good && c.quality == best
    requires forall c :: c in good ==> best - c.quality > epsilon
    ensures epsilon < 0.0
  {
  }

  lemma BandWinner(
    candidates: seq<Evaluation>, good: seq<Evaluation>, close: seq<Evaluation>, w: Evaluation, floor: real,
    embeddingOk: bool,
    best: real, epsilon: real)
    requires good == Eligibles(candidates, floor, embeddingOk)
    requires (exists c :: c in good && c.quality == best) && forall c :: c in good ==> c.quality <= best
    requires forall c :: c in close <==> c in good && best - c.quality <= epsilon
    requires w in close && forall c :: c in close ==> KeyLe(w, c)
    ensures Wins(w, candidates, floor, embeddingOk, epsilon) && epsilon >= 0.0
  {
    hide Eligible, KeyLe;
    assert BestQuality(candidates, floor, embeddingOk, best);
    assert forall c :: InBand(c, candidates, floor, embeddingOk, best, epsilon) ==> c in close;
    assert InBand(w, candidates, floor, embeddingOk, best, epsilon);
  }

  /** The verdict depends only on which eligible evaluations took part: not on their order, not on
      repetitions, not on the ineligible ones. */
  lemma VerdictIgnoresOrderAndIneligible(
    a: seq<Evaluation>, b: seq<Evaluation>, floor: real, embeddingOk: bool, epsilon: real, v: Evaluation, w: Evaluation)
    requires forall c :: Eligible(c, floor, embeddingOk) ==> (c in a <==> c in b)
    requires Wins(v, a, floor, embeddingOk, epsilon) && Wins(w, b, floor, embeddingOk, epsilon)
    ensures v.id == w.id
  {
    KeyLeOrder();
    hide Eligible, OptLess, KeyLe;
    var x :|
      && BestQuality(a, floor, embeddingOk, x) && InBand(v, a, floor, embeddingOk, x, epsilon)
      && forall c :: InBand(c, a, floor, embeddingOk, x, epsilon) ==> KeyLe(v, c);
    var y :|
      && BestQuality(b, floor, embeddingOk, y) && InBand(w, b, floor, embeddingOk, y, epsilon)
      && forall c :: InBand(c, b, floor, embeddingOk, y, epsilon) ==> KeyLe(w, c);
    assert x == y;
    assert InBand(w, a, floor, embeddingOk, x, epsilon) && InBand(v, b, floor, embeddingOk, y, epsilon);
    assert KeyLe(v, w) && KeyLe(w, v);
  }

  /** An extra candidate can take the verdict, or push the old winner out of the band by raising the
      best quality; in every other case the old winner stays. */
  lemma NewcomerChangesLittle(
    a: seq<Evaluation>, n: Evaluation, floor: real, embeddingOk: bool, epsilon: real, v: Evaluation, w: Evaluation)
    requires Wins(v, a, floor, embeddingOk, epsilon) && Wins(w, a + [n], floor, embeddingOk, epsilon)
    ensures w.id == v.id || w == n
            || (Eligible(n, floor, embeddingOk) && n.quality - v.quality > epsilon)
  {
    KeyLeOrder();
    hide Eligible, OptLess, KeyLe;
    var x :|
      && BestQuality(a, floor, embeddingOk, x) && InBand(v, a, floor, embeddingOk, x, epsilon)
      && forall c :: InBand(c, a, floor, embeddingOk, x, epsilon) ==> KeyLe(v, c);
    var y :|
      && BestQuality(a + [n], floor, embeddingOk, y) && InBand(w, a + [n], floor, embeddingOk, y, epsilon)
      && forall c :: InBand(c, a + [n], floor, embeddingOk, y, epsilon) ==> KeyLe(w, c);
    if w != n {
      assert w in a && x <= y;
      assert InBand(w, a, floor, embeddingOk, x, epsilon);
      if y - v.quality <= epsilon {
        assert InBand(v, a + [n], floor, embeddingOk, y, epsilon);
        assert KeyLe(v, w) && KeyLe(w, v);
      } else {
        assert y > x;
        var top :| top in a + [n] && Eligible(top, floor, embeddingOk) && top.quality == y;
        assert top == n;
      }
    }
  }
}
