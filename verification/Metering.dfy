/** Usage events, the shared spend ledger, and the reconciliation of usage into a cost summary.
    Money is exact: reals instead of floats. */
module Metering {
  import opened Options

  datatype Role = GENERATOR | ORACLE | HARNESS | CANDIDATE

  datatype UsageSource = MEASURED | ESTIMATED | UNAVAILABLE

  datatype CostStatus = COMPLETE | INCOMPLETE | COST_UNAVAILABLE

  /** `details` stands for the fields no decision reads: raw usage, tags, execution time. */
  datatype Event = Event(
    eventId: string,
    requestId: string,
    candidate: string,
    phase: string,
    role: Role,
    provider: string,
    model: string,
    usageSource: UsageSource,
    inputTokens: Option<nat>,
    outputTokens: Option<nat>,
    details: string)

  type Price = p: real | p >= 0.0

  datatype Quote = Quote(inputPerMillion: Price, outputPerMillion: Price)

  datatype PriceSheet = PriceSheet(version: string, models: map<string, Quote>)

  function PriceKey(e: Event): string {
    e.provider + ":" + e.model
  }

  function EventCost(e: Event, quote: Quote): (cost: Option<real>) {
    if e.inputTokens.None? || e.outputTokens.None? then None
    else Some((e.inputTokens.value as real) * quote.inputPerMillion / 1000000.0
              + (e.outputTokens.value as real) * quote.outputPerMillion / 1000000.0)
  }

  /** A million input tokens cost the quoted input price, a million output tokens the output price. */
  lemma CostPerMillion(e: Event, quote: Quote, input: nat, output: nat)
    requires e.inputTokens == Some(1000000 * input) && e.outputTokens == Some(1000000 * output)
    ensures var cost := EventCost(e, quote);
      cost.Some? && cost.value == input as real * quote.inputPerMillion + output as real * quote.outputPerMillion
  {
    var c := EventCost(e, quote);
    var x, y := e.inputTokens.value, e.outputTokens.value;
    MillionTimes(x, input, quote.inputPerMillion);
    MillionTimes(y, output, quote.outputPerMillion);
    assert c.value == x as real * quote.inputPerMillion / 1000000.0 + y as real * quote.outputPerMillion / 1000000.0;
  }

  lemma MillionTimes(tokens: nat, millions: nat, price: real)
    requires tokens == 1000000 * millions
    ensures tokens as real * price / 1000000.0 == millions as real * price
  {
    var t, m := tokens as real, millions as real;
    assert t == 1000000.0 * m;
    assert t * price == 1000000.0 * (m * price);
  }

  /** The cost the ledger can attribute to an event, when its model is priced and its usage known. */
  function KnownCost(prices: PriceSheet, e: Event): (cost: Option<real>)
    ensures cost.Some? ==> cost.value >= 0.0
  {
    if PriceKey(e) in prices.models then EventCost(e, prices.models[PriceKey(e)]) else None
  }

  function CostOrZero(prices: PriceSheet, e: Event): (cost: real)
    ensures cost >= 0.0
  {
    if KnownCost(prices, e).Some? then KnownCost(prices, e).value else 0.0
  }

  function TotalCost(prices: PriceSheet, events: seq<Event>): (total: real)
    ensures total >= 0.0
  {
    if events == [] then 0.0
    else TotalCost(prices, events[..|events| - 1]) + CostOrZero(prices, events[|events| - 1])
  }

  lemma {:induction false} TotalCostConcat(prices: PriceSheet, a: seq<Event>, b: seq<Event>)
    ensures TotalCost(prices, a + b) == TotalCost(prices, a) + TotalCost(prices, b)
  {
    if b == [] {
      assert a + b == a;
    } else {
      assert (a + b)[..|a + b| - 1] == a + b[..|b| - 1];
      TotalCostConcat(prices, a, b[..|b| - 1]);
    }
  }

  // ----- the shared ledger -----

  datatype Ledger = Ledger(budget: real, prices: PriceSheet, events: seq<Event>, spent: real, exceeded: bool)

  /** The locked part of `record_event`; the flag says whether it raises. */
  function RecordSection(l: Ledger, e: Event): (r: (Ledger, bool)) {
    var l1 := l.(events := l.events + [e]);
    match KnownCost(l.prices, e)
    case None => (l1, false)
    case Some(cost) =>
      if l.spent + cost > l.budget then (l1.(spent := l.spent + cost, exceeded := true), true)
      else (l1.(spent := l.spent + cost), false)
  }

  class MeteringBudget {
    const budgetUsd: real
    const prices: PriceSheet
    var spentUsd: real
    var budgetExceeded: bool
    var events: seq<Event>

    function View(): (l: Ledger)
      reads this
    {
      Ledger(budgetUsd, prices, events, spentUsd, budgetExceeded)
    }

    constructor (budgetUsd: real, prices: PriceSheet)
      requires budgetUsd > 0.0
      ensures View() == Ledger(budgetUsd, prices, [], 0.0, false)
    {
      this.budgetUsd, this.prices := budgetUsd, prices;
      spentUsd, budgetExceeded, events := 0.0, false, [];
    }

    method Record(e: Event) returns (raised: bool)
      modifies this
      ensures (View(), raised) == RecordSection(old(View()), e)
    {
      events := events + [e];
      raised := false;
      var cost := if PriceKey(e) in prices.models then EventCost(e, prices.models[PriceKey(e)]) else None;
      if cost.Some? {
        spentUsd := spentUsd + cost.value;
        if spentUsd > budgetUsd {
          budgetExceeded := true;
          raised := true;
        }
      }
    }
  }

  /** The ledger with the calls that have passed the unlocked check and not yet taken the lock. */
  datatype Shared = Shared(ledger: Ledger, passed: seq<Event>)

  datatype RecordStep =
    | Check(event: Event)   // the unlocked test; a call that sees the flag raises and goes no further
    | Commit(call: nat)     // the locked part of the call-th waiting call

  function NextShared(s: Shared, step: RecordStep): (s': Shared) {
    match step
    case Check(e) => if s.ledger.exceeded then s else s.(passed := s.passed + [e])
    case Commit(k) =>
      if k < |s.passed| then
        Shared(RecordSection(s.ledger, s.passed[k]).0, s.passed[..k] + s.passed[k + 1..])
      else s
  }

  function RunShared(s: Shared, steps: seq<RecordStep>): (s': Shared)
    decreases |steps|
  {
    if steps == [] then s else RunShared(NextShared(s, steps[0]), steps[1..])
  }

  ghost predicate Balanced(l: Ledger) {
    l.spent == TotalCost(l.prices, l.events) && (l.exceeded <==> l.spent > l.budget)
  }

  lemma RecordKeepsBalance(l: Ledger, e: Event)
    requires Balanced(l)
    ensures var l' := RecordSection(l, e).0;
      && Balanced(l') && l'.budget == l.budget && l'.prices == l.prices && l'.events == l.events + [e]
      && l.spent <= l'.spent && (l.exceeded ==> l'.exceeded)
  {
    hide KnownCost, PriceKey, EventCost;
    assert (l.events + [e])[..|l.events|] == l.events;
    assert TotalCost(l.prices, l.events + [e]) == TotalCost(l.prices, l.events) + CostOrZero(l.prices, e);
  }

  /** A call is refused exactly when it adds a known cost and the ledger is then over budget: what cannot be
      priced is written down and never refused. */
  lemma RecordTells(l: Ledger, e: Event)
    requires Balanced(l)
    ensures var (l', raised) := RecordSection(l, e);
      && l'.events == l.events + [e]
      && (raised <==>
            && e.provider + ":" + e.model in l.prices.models && e.inputTokens.Some? && e.outputTokens.Some?
            && l'.spent > l.budget)
  {
    RecordKeepsBalance(l, e);
    hide Balanced, TotalCost;
  }

  lemma StepKeepsBalance(s: Shared, step: RecordStep)
    requires Balanced(s.ledger)
    ensures var l, l' := s.ledger, NextShared(s, step).ledger;
      && Balanced(l') && l'.budget == l.budget && l'.prices == l.prices
      && l.spent <= l'.spent && (l.exceeded ==> l'.exceeded) && l.events <= l'.events
  {
    hide RecordSection, Balanced;
    if step.Commit? && step.call < |s.passed| { RecordKeepsBalance(s.ledger, s.passed[step.call]); }
  }

  /** Over every interleaving the ledger's spend is the sum of the known costs of its events, the
      flag is up exactly when the spend is over budget, and neither ever goes back. */
  lemma {:induction false} LedgerStaysBalanced(s: Shared, steps: seq<RecordStep>)
    requires Balanced(s.ledger)
    ensures var l, l' := s.ledger, RunShared(s, steps).ledger;
      && Balanced(l') && l'.budget == l.budget && l'.prices == l.prices
      && l.spent <= l'.spent && (l.exceeded ==> l'.exceeded) && l.events <= l'.events
    decreases |steps|
  {
    if steps != [] {
      StepKeepsBalance(s, steps[0]);
      LedgerStaysBalanced(NextShared(s, steps[0]), steps[1..]);
    }
  }

  function Start(budget: real, prices: PriceSheet): Shared {
    Shared(Ledger(budget, prices, [], 0.0, false), [])
  }

  lemma LedgerFromStart(budget: real, prices: PriceSheet, steps: seq<RecordStep>)
    requires budget > 0.0
    ensures Balanced(RunShared(Start(budget, prices), steps).ledger)
  {
    LedgerStaysBalanced(Start(budget, prices), steps);
  }

  lemma CostOfOne(prices: PriceSheet, p: seq<Event>, k: nat)
    requires k < |p|
    ensures TotalCost(prices, p) == TotalCost(prices, p[..k] + p[k + 1..]) + CostOrZero(prices, p[k])
  {
    hide CostOrZero;
    assert p == (p[..k] + [p[k]]) + p[k + 1..];
    TotalCostConcat(prices, p[..k] + [p[k]], p[k + 1..]);
    TotalCostConcat(prices, p[..k], [p[k]]);
    TotalCostConcat(prices, p[..k], p[k + 1..]);
    assert [p[k]][..0] == [];
  }

  lemma SpentAfter(l: Ledger, e: Event)
    ensures RecordSection(l, e).0.spent == l.spent + CostOrZero(l.prices, e)
    ensures RecordSection(l, e).0.events == l.events + [e]
  {
    hide KnownCost;
  }

  // What the waiting calls would add is paid out of what is waiting.
  lemma CommitMovesCost(s: Shared, step: RecordStep)
    requires s.ledger.exceeded && Balanced(s.ledger)
    ensures var s' := NextShared(s, step);
      && |s'.ledger.events| + |s'.passed| == |s.ledger.events| + |s.passed|
      && multiset(s'.ledger.events) + multiset(s'.passed) == multiset(s.ledger.events) + multiset(s.passed)
      && s'.ledger.spent + TotalCost(s.ledger.prices, s'.passed)
           == s.ledger.spent + TotalCost(s.ledger.prices, s.passed)
  {
    hide RecordSection, TotalCost, CostOrZero, Balanced;
    if step.Commit? && step.call < |s.passed| {
      var k, p := step.call, s.passed;
      SpentAfter(s.ledger, p[k]);
      CostOfOne(s.ledger.prices, p, k);
      assert p == p[..k] + [p[k]] + p[k + 1..];
    }
  }

  /** Once the flag is up only the calls that were already past the check can still append: no
      other event gets in, each of them at most once, and they account for all further spend. */
  lemma {:induction false} OnlyPassedCallsAppend(s: Shared, later: seq<RecordStep>)
    requires s.ledger.exceeded && Balanced(s.ledger)
    ensures var s' := RunShared(s, later);
      && |s'.ledger.events| + |s'.passed| == |s.ledger.events| + |s.passed|
      && multiset(s'.ledger.events) + multiset(s'.passed) == multiset(s.ledger.events) + multiset(s.passed)
      && s'.ledger.spent + TotalCost(s.ledger.prices, s'.passed)
           == s.ledger.spent + TotalCost(s.ledger.prices, s.passed)
    decreases |later|
  {
    if later != [] {
      CommitMovesCost(s, later[0]);
      StepKeepsBalance(s, later[0]);
      OnlyPassedCallsAppend(NextShared(s, later[0]), later[1..]);
    }
  }

  /** The overshoot is at most the cost of the calls in flight when the flag flips. */
  lemma OvershootIsWhatWasInFlight(s: Shared, flip: RecordStep, later: seq<RecordStep>)
    requires Balanced(s.ledger) && !s.ledger.exceeded && NextShared(s, flip).ledger.exceeded
    ensures RunShared(s, [flip] + later).ledger.spent <= s.ledger.budget + TotalCost(s.ledger.prices, s.passed)
  {
    var s1 := NextShared(s, flip);
    assert ([flip] + later)[1..] == later;
    StepKeepsBalance(s, flip);
    OnlyPassedCallsAppend(s1, later);
    SpentAfter(s.ledger, s.passed[flip.call]);
    CostOfOne(s.ledger.prices, s.passed, flip.call);
  }

  /** A single caller: every check finds no other call waiting. */
  ghost predicate OneAtATime(s: Shared, steps: seq<RecordStep>)
    decreases |steps|
  {
    steps == [] || ((steps[0].Check? ==> s.passed == []) && OneAtATime(NextShared(s, steps[0]), steps[1..]))
  }

  ghost predicate OverByLastEvent(s: Shared) {
    var l := s.ledger;
    && |s.passed| <= 1
    && (l.exceeded ==>
          && s.passed == [] && l.events != []
          && l.spent - CostOrZero(l.prices, l.events[|l.events| - 1]) <= l.budget)
  }

  /** A single caller overshoots the budget by at most the cost of the last event recorded. */
  lemma {:induction false} SingleCallerOvershoot(s: Shared, steps: seq<RecordStep>)
    requires OneAtATime(s, steps) && Balanced(s.ledger) && OverByLastEvent(s)
    ensures OverByLastEvent(RunShared(s, steps))
    decreases |steps|
  {
    if steps != [] {
      StepKeepsBalance(s, steps[0]);
      SingleCallerOvershoot(NextShared(s, steps[0]), steps[1..]);
    }
  }

  lemma SingleCallerOvershootFromStart(budget: real, prices: PriceSheet, steps: seq<RecordStep>)
    requires budget > 0.0 && OneAtATime(Start(budget, prices), steps)
    ensures var l := RunShared(Start(budget, prices), steps).ledger;
      l.exceeded ==> l.events != [] && l.spent <= l.budget + CostOrZero(prices, l.events[|l.events| - 1])
  {
    SingleCallerOvershoot(Start(budget, prices), steps);
    LedgerStaysBalanced(Start(budget, prices), steps);
  }

  const RACE_PRICES := PriceSheet("v", map["p:m" := Quote(3.0, 0.0)])
  const RACE_EVENT := Event("e", "r", "c", "query", CANDIDATE, "p", "m", MEASURED, Some(1000000), Some(0), "")

  /** With two callers one event's cost is no bound: both pass the check before either commits. */
  lemma TwoCallersOvershootMore()
    ensures var l := RunShared(Start(1.0, RACE_PRICES),
      [Check(RACE_EVENT), Check(RACE_EVENT), Commit(0), Commit(0)]).ledger;
      && l.exceeded && l.events == [RACE_EVENT, RACE_EVENT]
      && l.spent > l.budget + CostOrZero(RACE_PRICES, RACE_EVENT)
  {
    assert PriceKey(RACE_EVENT) == "p:m";
    var s1 := NextShared(Start(1.0, RACE_PRICES), Check(RACE_EVENT));
    var s2 := NextShared(s1, Check(RACE_EVENT));
    var s3 := NextShared(s2, Commit(0));
    var s4 := NextShared(s3, Commit(0));
    assert [Check(RACE_EVENT), Check(RACE_EVENT), Commit(0), Commit(0)][1..] ==
      [Check(RACE_EVENT), Commit(0), Commit(0)];
    assert [Check(RACE_EVENT), Commit(0), Commit(0)][1..] == [Commit(0), Commit(0)];
    assert [Commit(0), Commit(0)][1..] == [Commit(0)];
    assert RunShared(s3, [Commit(0)]) == s4;
    assert RunShared(s2, [Commit(0), Commit(0)]) == s4;
    assert RunShared(s1, [Check(RACE_EVENT), Commit(0), Commit(0)]) == s4;
    assert s2.passed == [RACE_EVENT, RACE_EVENT] && s3.passed == [RACE_EVENT];
  }
}
