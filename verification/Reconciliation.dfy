/** `reconcile_usage`: from raw usage events to one cost summary, in whatever order they arrived. */
module Reconciliation {
  import opened Options
  import opened Ordering
  import opened Metering

  /** Native usage reported by GBrain; a missing key is `None`. */
  datatype Native = Native(input: Option<int>, output: Option<int>)

  datatype Summary = Summary(
    status: CostStatus,
    usageSource: UsageSource,
    inputTokens: nat,
    outputTokens: nat,
    usd: Option<real>,
    priceVersion: Option<string>,
    native: Option<Native>,
    rawEvents: seq<Event>,
    warnings: seq<string>)

  /** Which events a summary is about. */
  datatype Scope = Scope(role: Option<Role>, candidate: Option<string>, phase: Option<string>)

  function RoleName(role: Role): string {
    match role
    case GENERATOR => "generator"
    case ORACLE => "oracle"
    case HARNESS => "harness"
    case CANDIDATE => "candidate"
  }

  function SourceName(source: UsageSource): string {
    match source
    case MEASURED => "measured"
    case ESTIMATED => "estimated"
    case UNAVAILABLE => "unavailable"
  }

  predicate InScope(scope: Scope, e: Event) {
    && (scope.role.None? || e.role == scope.role.value)
    && (scope.candidate.None? || e.candidate == scope.candidate.value)
    && (scope.phase.None? || e.phase == scope.phase.value)
  }

  function FilterEvents(events: seq<Event>, scope: Scope): (r: seq<Event>) {
    if events == [] then []
    else
      var rest := FilterEvents(events[..|events| - 1], scope);
      var last := events[|events| - 1];
      if InScope(scope, last) then rest + [last] else rest
  }

  /** The last entry is the event's canonical JSON. */
  function SortKey(e: Event, dump: Event -> string): (key: seq<string>) {
    [RoleName(e.role), e.candidate, e.phase, e.eventId, e.requestId, e.provider, e.model, dump(e)]
  }

  function Selected(events: seq<Event>, scope: Scope, dump: Event -> string): (r: seq<Event>) {
    Sort(FilterEvents(events, scope), (a, b) => TupleLe(SortKey(a, dump), SortKey(b, dump)))
  }

  // ----- what one event contributes -----

  predicate UsageKnown(e: Event) {
    e.inputTokens.Some? && e.outputTokens.Some?
  }

  predicate FullyPriced(prices: PriceSheet, e: Event) {
    e.usageSource == MEASURED && UsageKnown(e) && PriceKey(e) in prices.models
  }

  function EventWarnings(prices: Option<PriceSheet>, e: Event): (w: seq<string>) {
    if e.usageSource != MEASURED then ["COST_INCOMPLETE: " + SourceName(e.usageSource) + " usage for " + e.requestId]
    else if !UsageKnown(e) then ["COST_INCOMPLETE: missing usage for " + e.requestId]
    else if prices.None? || PriceKey(e) !in prices.value.models then ["COST_INCOMPLETE: no price for " + PriceKey(e)]
    else []
  }

  function OrZero(n: Option<nat>): nat {
    if n.Some? then n.value else 0
  }

  function InputSum(events: seq<Event>): nat {
    if events == [] then 0 else InputSum(events[..|events| - 1]) + OrZero(events[|events| - 1].inputTokens)
  }

  function OutputSum(events: seq<Event>): nat {
    if events == [] then 0 else OutputSum(events[..|events| - 1]) + OrZero(events[|events| - 1].outputTokens)
  }

  // The sum of `costs`: only measured, priced events are added.
  function PricedSum(prices: Option<PriceSheet>, events: seq<Event>): (total: real)
    ensures total >= 0.0
  {
    if events == [] then 0.0
    else
      var last := events[|events| - 1];
      PricedSum(prices, events[..|events| - 1])
      + if prices.Some? && FullyPriced(prices.value, last) then CostOrZero(prices.value, last) else 0.0
  }

  function Warnings(prices: Option<PriceSheet>, events: seq<Event>): (w: seq<string>) {
    if events == [] then []
    else Warnings(prices, events[..|events| - 1]) + EventWarnings(prices, events[|events| - 1])
  }

  function QueryEvents(events: seq<Event>): seq<Event> {
    FilterEvents(events, Scope(None, None, Some("query")))
  }

  predicate NativeMatches(native: Native, events: seq<Event>) {
    native == Native(Some(InputSum(QueryEvents(events))), Some(OutputSum(QueryEvents(events))))
  }

  predicate HasPhase(events: seq<Event>, phase: string) {
    exists e :: e in events && e.phase == phase
  }

  predicate HasGBrain(events: seq<Event>) {
    exists e :: e in events && e.candidate == "gbrain"
  }

  predicate MixedRoles(events: seq<Event>, scope: Scope) {
    scope.role.None? && exists a, b :: a in events && b in events && a.role != b.role
  }

  function PhaseWarnings(events: seq<Event>, required: seq<string>): (w: seq<string>) {
    if required == [] then []
    else
      PhaseWarnings(events, required[..|required| - 1])
      + if HasPhase(events, required[|required| - 1]) then []
        else ["COST_INCOMPLETE: required paid phase " + required[|required| - 1] + " is missing"]
  }

  function SummarySource(events: seq<Event>): UsageSource {
    if exists e :: e in events && (!UsageKnown(e) || e.usageSource == UNAVAILABLE) then UNAVAILABLE
    else if exists e :: e in events && e.usageSource == ESTIMATED then ESTIMATED
    else MEASURED
  }

  /** Nothing stands in the way of a total for these events. */
  predicate CostComplete(
    prices: Option<PriceSheet>, native: Option<Native>, required: seq<string>, mixed: bool, events: seq<Event>)
  {
    && prices.Some? && !mixed
    && (forall e :: e in events ==> FullyPriced(prices.value, e))
    && (HasGBrain(events) ==> native.Some?)
    && (native.Some? ==> NativeMatches(native.value, events))
    && (forall p :: p in required ==> HasPhase(events, p))
  }

  function Version(prices: Option<PriceSheet>): Option<string> {
    if prices.Some? then Some(prices.value.version) else None
  }

  function AllWarnings(
    mixed: bool, eventWarnings: seq<string>, gbrainBlind: bool, mismatch: bool, phaseWarnings: seq<string>): seq<string>
  {
    Sort((if mixed then ["METERING_ROLE_MIXED: pass role/candidate filters before reconciliation"] else [])
         + eventWarnings
         + (if gbrainBlind then ["COST_INCOMPLETE: GBrain native usage was unavailable"] else [])
         + (if mismatch then ["METERING_USAGE_MISMATCH: native and proxy query usage differ"] else [])
         + phaseWarnings,
         StrLe)
  }

  function StatusOf(complete: bool, events: seq<Event>): CostStatus {
    if complete then COMPLETE
    else if forall e :: e in events ==> !UsageKnown(e) then COST_UNAVAILABLE
    else INCOMPLETE
  }

  /** What the loop over the events adds up. */
  datatype Tally = Tally(input: nat, output: nat, cost: real, warnings: seq<string>)

  function TallyOf(prices: Option<PriceSheet>, events: seq<Event>): Tally {
    Tally(InputSum(events), OutputSum(events), PricedSum(prices, events), Warnings(prices, events))
  }

  function Report(
    prices: Option<PriceSheet>, native: Option<Native>, mixed: bool, events: seq<Event>, round: real -> real,
    complete: bool, tally: Tally, phaseWarnings: seq<string>): Summary
  {
    Summary(
      StatusOf(complete, events), SummarySource(events), tally.input, tally.output,
      if complete then Some(round(tally.cost)) else None,
      Version(prices), native, events,
      AllWarnings(mixed, tally.warnings, GBrainBlind(native, events), Mismatch(native, events), phaseWarnings))
  }

  function Summarize(
    prices: Option<PriceSheet>, native: Option<Native>, required: seq<string>, mixed: bool,
    events: seq<Event>, round: real -> real): (s: Summary)
  {
    Report(
      prices, native, mixed, events, round,
      CostComplete(prices, native, required, mixed, events), TallyOf(prices, events),
      PhaseWarnings(events, required))
  }

  function NoUsage(any: bool, prices: Option<PriceSheet>, native: Option<Native>): Summary {
    Summary(COST_UNAVAILABLE, UNAVAILABLE, 0, 0, None, Version(prices), native, [],
            [if any then "COST_UNAVAILABLE: no attributable usage events were recorded"
             else "COST_UNAVAILABLE: no usage events were recorded"])
  }

  function Reconcile(
    events: seq<Event>, prices: Option<PriceSheet>, native: Option<Native>, scope: Scope, required: seq<string>,
    dump: Event -> string, round: real -> real): (s: Summary)
  {
    var selected := Selected(events, scope, dump);
    if selected == [] then NoUsage(events != [], prices, native)
    else Summarize(prices, native, required, MixedRoles(events, scope), selected, round)
  }

  lemma NoSums(prices: Option<PriceSheet>)
    ensures InputSum([]) == 0 && OutputSum([]) == 0 && PricedSum(prices, []) == 0.0 && Warnings(prices, []) == []
  {
  }

  lemma SumsStep(prices: Option<PriceSheet>, events: seq<Event>, i: nat)
    requires i < |events|
    ensures InputSum(events[..i + 1]) == InputSum(events[..i]) + OrZero(events[i].inputTokens)
    ensures OutputSum(events[..i + 1]) == OutputSum(events[..i]) + OrZero(events[i].outputTokens)
    ensures PricedSum(prices, events[..i + 1]) == PricedSum(prices, events[..i])
      + if prices.Some? && FullyPriced(prices.value, events[i]) then CostOrZero(prices.value, events[i]) else 0.0
    ensures Warnings(prices, events[..i + 1]) == Warnings(prices, events[..i]) + EventWarnings(prices, events[i])
    ensures forall e :: e in events[..i + 1] <==> e in events[..i] || e == events[i]
  {
    hide OrZero, FullyPriced, CostOrZero, EventWarnings;
    assert events[..i + 1][..i] == events[..i];
  }

  lemma PricedHasCost(prices: PriceSheet, e: Event)
    requires e.inputTokens.Some? && e.outputTokens.Some? && PriceKey(e) in prices.models
    ensures EventCost(e, prices.models[PriceKey(e)]).Some?
  {
  }

  /** The one-pass accumulation over the selected events. */
  method Accumulate(prices: Option<PriceSheet>, selected: seq<Event>)
    returns (input: nat, output: nat, cost: real, complete: bool, warnings: seq<string>)
    ensures input == InputSum(selected) && output == OutputSum(selected)
    ensures cost == PricedSum(prices, selected)
    ensures warnings == Warnings(prices, selected)
    ensures complete <==> prices.Some? && forall e :: e in selected ==> FullyPriced(prices.value, e)
  {
    hide InputSum, OutputSum, PricedSum, Warnings, PriceKey, SourceName, EventCost;
    input, output, cost, complete, warnings := 0, 0, 0.0, prices.Some?, [];
    NoSums(prices);
    assert selected[..0] == [];
    for i := 0 to |selected|
      invariant input == InputSum(selected[..i]) && output == OutputSum(selected[..i])
      invariant cost == PricedSum(prices, selected[..i])
      invariant warnings == Warnings(prices, selected[..i])
      invariant complete <==> prices.Some? && forall e :: e in selected[..i] ==> FullyPriced(prices.value, e)
    {
      var e := selected[i];
      SumsStep(prices, selected, i);
      input := input + OrZero(e.inputTokens);
      output := output + OrZero(e.outputTokens);
      if e.usageSource != MEASURED {
        complete := false;
        warnings := warnings + ["COST_INCOMPLETE: " + SourceName(e.usageSource) + " usage for " + e.requestId];
      } else if e.inputTokens.None? || e.outputTokens.None? {
        complete := false;
        warnings := warnings + ["COST_INCOMPLETE: missing usage for " + e.requestId];
      } else if prices.None? || PriceKey(e) !in prices.value.models {
        complete := false;
        warnings := warnings + ["COST_INCOMPLETE: no price for " + PriceKey(e)];
      } else {
        PricedHasCost(prices.value, e);
        cost := cost + EventCost(e, prices.value.models[PriceKey(e)]).value;
      }
    }
    assert selected[..|selected|] == selected;
  }

  method CheckPhases(selected: seq<Event>, required: seq<string>) returns (present: bool, warnings: seq<string>)
    ensures present <==> forall p :: p in required ==> HasPhase(selected, p)
    ensures warnings == PhaseWarnings(selected, required)
  {
    present, warnings := true, [];
    for i := 0 to |required|
      invariant present <==> forall p :: p in required[..i] ==> HasPhase(selected, p)
      invariant warnings == PhaseWarnings(selected, required[..i])
    {
      assert required[..i + 1][..|required[..i + 1]| - 1] == required[..i];
      assert required[..i + 1] == required[..i] + [required[i]];
      if !HasPhase(selected, required[i]) {
        present := false;
        warnings := warnings + ["COST_INCOMPLETE: required paid phase " + required[i] + " is missing"];
      } else {
        assert warnings == warnings + [];
      }
    }
    assert required[..|required|] == required;
  }

  predicate GBrainBlind(native: Option<Native>, events: seq<Event>) {
    HasGBrain(events) && native.None?
  }

  predicate Mismatch(native: Option<Native>, events: seq<Event>) {
    native.Some? && !NativeMatches(native.value, events)
  }

  /** The checks after the loop; each can only take completeness away. */
  method CheckComplete(
    prices: Option<PriceSheet>, native: Option<Native>, required: seq<string>, mixed: bool, selected: seq<Event>,
    priced: bool) returns (complete: bool, phaseWarnings: seq<string>)
    requires priced <==> prices.Some? && forall e :: e in selected ==> FullyPriced(prices.value, e)
    ensures complete <==> CostComplete(prices, native, required, mixed, selected)
    ensures phaseWarnings == PhaseWarnings(selected, required)
  {
    complete := priced;
    if mixed { complete := false; }
    if GBrainBlind(native, selected) { complete := false; }
    if Mismatch(native, selected) { complete := false; }
    var present;
    present, phaseWarnings := CheckPhases(selected, required);
    if !present { complete := false; }
  }

  /** The function with its loops and accumulators. */
  method ReconcileUsage(
    events: seq<Event>, prices: Option<PriceSheet>, native: Option<Native>, scope: Scope, required: seq<string>,
    dump: Event -> string, round: real -> real) returns (s: Summary)
    ensures s == Reconcile(events, prices, native, scope, required, dump, round)
  {
    var selected := Selected(events, scope, dump);
    var mixed := MixedRoles(events, scope);
    if events == [] || selected == [] { return NoUsage(events != [], prices, native); }
    var input, output, cost, priced, warnings := Accumulate(prices, selected);
    var complete, phaseWarnings := CheckComplete(prices, native, required, mixed, selected, priced);
    s := Report(prices, native, mixed, selected, round, complete, Tally(input, output, cost, warnings), phaseWarnings);
  }

  // ----- arrival order does not matter -----

  lemma {:induction false} FilterCounts(events: seq<Event>, scope: Scope, e: Event)
    ensures multiset(FilterEvents(events, scope))[e] == if InScope(scope, e) then multiset(events)[e] else 0
  {
    if events != [] {
      FilterCounts(events[..|events| - 1], scope, e);
      assert events == events[..|events| - 1] + [events[|events| - 1]];
    }
  }

  lemma FilterPermutation(a: seq<Event>, b: seq<Event>, scope: Scope)
    requires multiset(a) == multiset(b)
    ensures multiset(FilterEvents(a, scope)) == multiset(FilterEvents(b, scope))
  {
    forall e ensures multiset(FilterEvents(a, scope))[e] == multiset(FilterEvents(b, scope))[e] {
      FilterCounts(a, scope, e);
      FilterCounts(b, scope, e);
    }
  }

  lemma FilterMembers(events: seq<Event>, scope: Scope)
    ensures forall e :: e in FilterEvents(events, scope) <==> e in events && InScope(scope, e)
    ensures forall e :: InScope(scope, e) <==>
      && (scope.role == None || scope.role == Some(e.role))
      && (scope.candidate == None || scope.candidate == Some(e.candidate))
      && (scope.phase == None || scope.phase == Some(e.phase))
  {
    forall e ensures e in FilterEvents(events, scope) <==> e in events && InScope(scope, e) {
      FilterCounts(events, scope, e);
      assert e in events <==> e in multiset(events);
      assert e in FilterEvents(events, scope) <==> e in multiset(FilterEvents(events, scope));
    }
  }

  ghost predicate Injective(dump: Event -> string) {
    forall a, b :: dump(a) == dump(b) ==> a == b
  }

  lemma KeyOrder(dump: Event -> string)
    ensures TotalPreorder((a: Event, b: Event) => TupleLe(SortKey(a, dump), SortKey(b, dump)))
  {
    TupleLeOrder();
  }

  lemma KeysDoNotTie(events: seq<Event>, dump: Event -> string)
    requires Injective(dump)
    ensures NoTies(events, (a: Event, b: Event) => TupleLe(SortKey(a, dump), SortKey(b, dump)))
  {
    forall a, b | TupleLe(SortKey(a, dump), SortKey(b, dump)) && TupleLe(SortKey(b, dump), SortKey(a, dump))
      ensures a == b
    {
      TupleLeAntisymmetric(SortKey(a, dump), SortKey(b, dump));
      assert SortKey(a, dump)[7] == SortKey(b, dump)[7];
    }
  }

  /** The whole summary, its rows and warnings included, is the same for every arrival order. */
  lemma ReconcileIgnoresArrivalOrder(
    a: seq<Event>, b: seq<Event>, prices: Option<PriceSheet>, native: Option<Native>, scope: Scope,
    required: seq<string>, dump: Event -> string, round: real -> real)
    requires multiset(a) == multiset(b) && Injective(dump)
    ensures Reconcile(a, prices, native, scope, required, dump, round)
         == Reconcile(b, prices, native, scope, required, dump, round)
  {
    var le := (a: Event, b: Event) => TupleLe(SortKey(a, dump), SortKey(b, dump));
    FilterPermutation(a, b, scope);
    KeyOrder(dump);
    KeysDoNotTie(FilterEvents(a, scope), dump);
    SortPermutation(FilterEvents(a, scope), FilterEvents(b, scope), le);
    MultisetMembers(a, b);
    assert Selected(a, scope, dump) == Selected(b, scope, dump);
    assert MixedRoles(a, scope) <==> MixedRoles(b, scope);
  }

  // ----- unknown cost is never a number -----

  /** The tokens of the events in scope that report them, of the events as they arrived. */
  function TokensInScope(events: seq<Event>, scope: Scope, tokens: Event -> Option<nat>): (sum: nat) {
    if events == [] then 0
    else
      var last := events[|events| - 1];
      TokensInScope(events[..|events| - 1], scope, tokens)
      + if InScope(scope, last) && tokens(last).Some? then tokens(last).value else 0
  }

  /** GBrain's own count is there when one of its events is in scope, and equals what the queries used. */
  ghost predicate OwnCountAgrees(events: seq<Event>, native: Option<Native>, scope: Scope) {
    match native
    case None => forall e :: e in events && InScope(scope, e) ==> e.candidate != "gbrain"
    case Some(n) =>
      && n.input ==
           Some(TokensInScope(events, scope, (e: Event) => if e.phase == "query" then e.inputTokens else None))
      && n.output ==
           Some(TokensInScope(events, scope, (e: Event) => if e.phase == "query" then e.outputTokens else None))
  }

  /** Nothing stands in the way of a total, said of the events as they arrived: some event is in
      scope, every event in scope is measured with known tokens and a price, roles are not mixed,
      every required phase is there, and GBrain's own count is present when needed and agrees. */
  ghost predicate CompleteInScope(
    events: seq<Event>, prices: Option<PriceSheet>, native: Option<Native>, scope: Scope, required: seq<string>)
  {
    && prices.Some?
    && (scope.role.Some? || forall a, b :: a in events && b in events ==> a.role == b.role)
    && (exists e :: e in events && InScope(scope, e))
    && (forall e :: e in events && InScope(scope, e) ==>
          && e.usageSource == MEASURED && e.inputTokens.Some? && e.outputTokens.Some?
          && e.provider + ":" + e.model in prices.value.models)
    && (forall p :: p in required ==> exists e :: e in events && InScope(scope, e) && e.phase == p)
    && OwnCountAgrees(events, native, scope)
  }

  lemma {:induction false} QueryTokens(events: seq<Event>, scope: Scope)
    ensures InputSum(QueryEvents(FilterEvents(events, scope))) ==
      TokensInScope(events, scope, (e: Event) => if e.phase == "query" then e.inputTokens else None)
    ensures OutputSum(QueryEvents(FilterEvents(events, scope))) ==
      TokensInScope(events, scope, (e: Event) => if e.phase == "query" then e.outputTokens else None)
  {
    if events != [] {
      var n := |events| - 1;
      var rest, last := FilterEvents(events[..n], scope), events[n];
      QueryTokens(events[..n], scope);
      assert (rest + [last])[..|rest|] == rest;
      var asked := QueryEvents(rest);
      assert (asked + [last])[..|asked|] == asked;
    }
  }

  lemma OwnCountIff(events: seq<Event>, native: Option<Native>, scope: Scope)
    ensures var here := FilterEvents(events, scope);
      OwnCountAgrees(events, native, scope) <==> !GBrainBlind(native, here) && !Mismatch(native, here)
  {
    hide InScope, FilterEvents, QueryEvents, InputSum, OutputSum, TokensInScope;
    QueryTokens(events, scope);
    FilterMembers(events, scope);
  }

  lemma CompleteIff(
    events: seq<Event>, prices: Option<PriceSheet>, native: Option<Native>, scope: Scope, required: seq<string>,
    dump: Event -> string)
    ensures var selected := Selected(events, scope, dump);
      CompleteInScope(events, prices, native, scope, required) <==>
        selected != [] && CostComplete(prices, native, required, MixedRoles(events, scope), selected)
  {
    SelectedFacts(events, prices, scope, dump);
    OwnCountIff(events, native, scope);
    hide Selected, HasPhase, HasGBrain, NativeMatches, OwnCountAgrees, InScope;
    var selected := Selected(events, scope, dump);
    PhasesInScope(selected, events, scope, required);
    if selected != [] {
      assert selected[0] in events && InScope(scope, selected[0]);
    } else {
      assert forall e :: e in events && InScope(scope, e) ==> e in selected;
    }
  }

  lemma PhasesInScope(selected: seq<Event>, events: seq<Event>, scope: Scope, required: seq<string>)
    requires forall e :: e in selected <==> e in events && InScope(scope, e)
    ensures (forall p :: p in required ==> HasPhase(selected, p)) <==>
            (forall p :: p in required ==> exists e :: e in events && InScope(scope, e) && e.phase == p)
  {
    assert forall p :: HasPhase(selected, p) <==> exists e :: e in events && InScope(scope, e) && e.phase == p;
  }

  /** A total is reported exactly when the status is COMPLETE, which is exactly when nothing stands
      in its way; it is then the rounded sum of the known costs in scope. */
  lemma TotalIffComplete(
    events: seq<Event>, prices: Option<PriceSheet>, native: Option<Native>, scope: Scope, required: seq<string>,
    dump: Event -> string, round: real -> real)
    ensures var s := Reconcile(events, prices, native, scope, required, dump, round);
      && (s.usd.Some? <==> s.status == COMPLETE)
      && (s.status == COMPLETE <==> CompleteInScope(events, prices, native, scope, required))
      && (s.status == COMPLETE ==> s.usd == Some(round(PricedSum(prices, FilterEvents(events, scope)))))
  {
    CompleteIff(events, prices, native, scope, required, dump);
    SelectedFacts(events, prices, scope, dump);
  }

  lemma SelectedFacts(events: seq<Event>, prices: Option<PriceSheet>, scope: Scope, dump: Event -> string)
    ensures var inScope, selected := FilterEvents(events, scope), Selected(events, scope, dump);
      && (forall e :: e in selected <==> e in events && InScope(scope, e))
      && PricedSum(prices, selected) == PricedSum(prices, inScope)
      && (HasGBrain(selected) <==> HasGBrain(inScope))
      && (forall native :: NativeMatches(native, selected) <==> NativeMatches(native, inScope))
  {
    var inScope, selected := FilterEvents(events, scope), Selected(events, scope, dump);
    FilterMembers(events, scope);
    var le := (a: Event, b: Event) => TupleLe(SortKey(a, dump), SortKey(b, dump));
    SortMembers(inScope, le);
    SortMultiset(inScope, le);
    SumsIgnoreOrder(prices, selected, inScope);
    FilterPermutation(selected, inScope, Scope(None, None, Some("query")));
    SumsIgnoreOrder(prices, QueryEvents(selected), QueryEvents(inScope));
  }

  lemma {:induction false} PricedSumRemoves(prices: Option<PriceSheet>, events: seq<Event>, i: nat)
    requires i < |events|
    ensures PricedSum(prices, events) ==
      PricedSum(prices, events[..i] + events[i + 1..]) + PricedSum(prices, [events[i]])
    ensures InputSum(events) == InputSum(events[..i] + events[i + 1..]) + OrZero(events[i].inputTokens)
    ensures OutputSum(events) == OutputSum(events[..i] + events[i + 1..]) + OrZero(events[i].outputTokens)
    decreases |events|
  {
    assert [events[i]][..0] == [];
    var rest, last := events[..|events| - 1], events[|events| - 1];
    if i == |rest| {
      assert events[..i] + events[i + 1..] == rest;
    } else {
      PricedSumRemoves(prices, rest, i);
      var without := events[..i] + events[i + 1..];
      assert without[..|without| - 1] == rest[..i] + rest[i + 1..];
      assert without[|without| - 1] == last;
    }
  }

  lemma {:induction false} SumsIgnoreOrder(prices: Option<PriceSheet>, a: seq<Event>, b: seq<Event>)
    requires multiset(a) == multiset(b)
    ensures PricedSum(prices, a) == PricedSum(prices, b)
    ensures InputSum(a) == InputSum(b) && OutputSum(a) == OutputSum(b)
    decreases |a|
  {
    MultisetMembers(a, b);
    if a != [] {
      var n := |a| - 1;
      assert a[n] in b;
      var i :| 0 <= i < |b| && b[i] == a[n];
      PricedSumRemoves(prices, a, n);
      PricedSumRemoves(prices, b, i);
      RemoveAtMultiset(a, n);
      RemoveAtMultiset(b, i);
      SumsIgnoreOrder(prices, a[..n] + a[n + 1..], b[..i] + b[i + 1..]);
    }
  }

  // ----- what the summary says -----

  lemma {:induction false} FilteredTokens(events: seq<Event>, scope: Scope)
    ensures InputSum(FilterEvents(events, scope)) == TokensInScope(events, scope, (e: Event) => e.inputTokens)
    ensures OutputSum(FilterEvents(events, scope)) == TokensInScope(events, scope, (e: Event) => e.outputTokens)
  {
    hide InScope;
    if events != [] {
      var last := events[|events| - 1];
      var rest := FilterEvents(events[..|events| - 1], scope);
      FilteredTokens(events[..|events| - 1], scope);
      assert (rest + [last])[..|rest|] == rest;
    }
  }

  lemma SelectedIsFiltered(events: seq<Event>, scope: Scope, dump: Event -> string)
    ensures multiset(Selected(events, scope, dump)) == multiset(FilterEvents(events, scope))
    ensures forall e :: e in Selected(events, scope, dump) <==> e in events && InScope(scope, e)
    ensures |Selected(events, scope, dump)| == |FilterEvents(events, scope)|
  {
    hide InScope, SortKey;
    var le := (a: Event, b: Event) => TupleLe(SortKey(a, dump), SortKey(b, dump));
    FilterMembers(events, scope);
    SortMembers(FilterEvents(events, scope), le);
    SortMultiset(FilterEvents(events, scope), le);
  }

  lemma ReportedTokens(events: seq<Event>, scope: Scope, dump: Event -> string)
    ensures InputSum(Selected(events, scope, dump)) == TokensInScope(events, scope, (e: Event) => e.inputTokens)
    ensures OutputSum(Selected(events, scope, dump)) == TokensInScope(events, scope, (e: Event) => e.outputTokens)
  {
    SelectedIsFiltered(events, scope, dump);
    SumsIgnoreOrder(None, Selected(events, scope, dump), FilterEvents(events, scope));
    FilteredTokens(events, scope);
  }

  /** What is reported, said of the events as they arrived: their tokens in scope, input and output each for
      itself; the events in scope as rows; the weakest of their sources; and no status better than they allow. */
  lemma SummaryTells(
    events: seq<Event>, prices: Option<PriceSheet>, native: Option<Native>, scope: Scope, required: seq<string>,
    dump: Event -> string, round: real -> real)
    ensures var s := Reconcile(events, prices, native, scope, required, dump, round);
      var here := set e | e in events && InScope(scope, e);
      && s.inputTokens == TokensInScope(events, scope, (e: Event) => e.inputTokens)
      && s.outputTokens == TokensInScope(events, scope, (e: Event) => e.outputTokens)
      && multiset(s.rawEvents) == multiset(FilterEvents(events, scope)) && s.native == native
      && s.priceVersion == (if prices.Some? then Some(prices.value.version) else None)
      && (s.usageSource == MEASURED <==>
            && here != {}
            && forall e :: e in here ==> e.usageSource == MEASURED && e.inputTokens.Some? && e.outputTokens.Some?)
      && (s.usageSource == ESTIMATED <==>
            && (exists e :: e in here && e.usageSource == ESTIMATED)
            && forall e :: e in here ==> e.usageSource != UNAVAILABLE && e.inputTokens.Some? && e.outputTokens.Some?)
      && (s.status == COST_UNAVAILABLE <==>
            s.usd.None? && forall e :: e in here ==> e.inputTokens.None? || e.outputTokens.None?)
      && (here == {} ==> s.warnings == [if events == [] then "COST_UNAVAILABLE: no usage events were recorded"
                                        else "COST_UNAVAILABLE: no attributable usage events were recorded"])
  {
    hide *;
    SelectedIsFiltered(events, scope, dump);
    ReportedTokens(events, scope, dump);
    NoSums(prices);
    var selected := Selected(events, scope, dump);
    var here := set e | e in events && InScope(scope, e);
    assert forall e :: e in here <==> e in selected;
    if selected == [] {
      NothingReported(events, prices, native, scope, required, dump, round);
      assert here == {};
    } else {
      assert selected[0] in here;
      FieldsReported(events, prices, native, scope, required, dump, round);
    }
  }

  lemma NothingReported(
    events: seq<Event>, prices: Option<PriceSheet>, native: Option<Native>, scope: Scope, required: seq<string>,
    dump: Event -> string, round: real -> real)
    requires Selected(events, scope, dump) == []
    ensures var s := Reconcile(events, prices, native, scope, required, dump, round);
      && s.status == COST_UNAVAILABLE && s.usageSource == UNAVAILABLE && s.inputTokens == s.outputTokens == 0
      && s.usd.None? && s.native == native && s.rawEvents == []
      && s.priceVersion == (if prices.Some? then Some(prices.value.version) else None)
      && s.warnings == [if events == [] then "COST_UNAVAILABLE: no usage events were recorded"
                        else "COST_UNAVAILABLE: no attributable usage events were recorded"]
  {
    hide Selected;
  }

  lemma FieldsReported(
    events: seq<Event>, prices: Option<PriceSheet>, native: Option<Native>, scope: Scope, required: seq<string>,
    dump: Event -> string, round: real -> real)
    requires Selected(events, scope, dump) != []
    ensures var s := Reconcile(events, prices, native, scope, required, dump, round);
      var here := Selected(events, scope, dump);
      && s.inputTokens == InputSum(here) && s.outputTokens == OutputSum(here) && s.rawEvents == here
      && s.native == native && s.priceVersion == (if prices.Some? then Some(prices.value.version) else None)
      && (s.usageSource == MEASURED <==>
            forall e :: e in here ==> e.usageSource == MEASURED && e.inputTokens.Some? && e.outputTokens.Some?)
      && (s.usageSource == ESTIMATED <==>
            && (exists e :: e in here && e.usageSource == ESTIMATED)
            && forall e :: e in here ==> e.usageSource != UNAVAILABLE && e.inputTokens.Some? && e.outputTokens.Some?)
      && (s.status == COST_UNAVAILABLE <==>
            s.usd.None? && forall e :: e in here ==> e.inputTokens.None? || e.outputTokens.None?)
  {
    hide PricedSum, Warnings, PhaseWarnings, AllWarnings, CostComplete, InputSum, OutputSum, MixedRoles, GBrainBlind,
      Mismatch, Selected;
  }

  ghost predicate RowsInOrder(rows: seq<Event>, dump: Event -> string) {
    forall i, j :: 0 <= i < j < |rows| ==>
      var a, b := rows[i], rows[j];
      TupleLe([RoleName(a.role), a.candidate, a.phase, a.eventId, a.requestId, a.provider, a.model, dump(a)],
              [RoleName(b.role), b.candidate, b.phase, b.eventId, b.requestId, b.provider, b.model, dump(b)])
  }

  /** The rows come by role, candidate, phase, ids, provider and model, whatever order the events came in. */
  lemma RowsAreInOrder(
    events: seq<Event>, prices: Option<PriceSheet>, native: Option<Native>, scope: Scope, required: seq<string>,
    dump: Event -> string, round: real -> real)
    ensures RowsInOrder(Reconcile(events, prices, native, scope, required, dump, round).rawEvents, dump)
    ensures RoleName(GENERATOR) == "generator" && RoleName(ORACLE) == "oracle" && RoleName(HARNESS) == "harness"
    ensures RoleName(CANDIDATE) == "candidate"
  {
    hide FilterEvents, RoleName, TupleLe;
    var le := (a: Event, b: Event) => TupleLe(SortKey(a, dump), SortKey(b, dump));
    KeyOrder(dump);
    SortSorted(FilterEvents(events, scope), le);
    RoleNames();
    if Selected(events, scope, dump) == [] {
      NothingReported(events, prices, native, scope, required, dump, round);
    } else {
      FieldsReported(events, prices, native, scope, required, dump, round);
    }
  }

  lemma RoleNames()
    ensures RoleName(GENERATOR) == "generator" && RoleName(ORACLE) == "oracle" && RoleName(HARNESS) == "harness"
    ensures RoleName(CANDIDATE) == "candidate"
  {
  }

  /** The warning that an event in the way of a total calls for. */
  predicate Explains(w: string, e: Event, prices: Option<PriceSheet>) {
    || (e.usageSource == ESTIMATED && w == "COST_INCOMPLETE: " + "estimated" + " usage for " + e.requestId)
    || (e.usageSource == UNAVAILABLE && w == "COST_INCOMPLETE: " + "unavailable" + " usage for " + e.requestId)
    || (&& e.usageSource == MEASURED && (e.inputTokens.None? || e.outputTokens.None?)
        && w == "COST_INCOMPLETE: missing usage for " + e.requestId)
    || (&& e.usageSource == MEASURED && e.inputTokens.Some? && e.outputTokens.Some?
        && (prices.None? || e.provider + ":" + e.model !in prices.value.models)
        && w == "COST_INCOMPLETE: no price for " + (e.provider + ":" + e.model))
  }

  lemma EventWarningsExplain(prices: Option<PriceSheet>, e: Event, w: string)
    ensures w in EventWarnings(prices, e) <==> Explains(w, e, prices)
  {
  }

  lemma {:induction false} WarningsExplain(prices: Option<PriceSheet>, events: seq<Event>, w: string)
    ensures w in Warnings(prices, events) <==> exists e :: e in events && Explains(w, e, prices)
  {
    hide Explains, EventWarnings;
    if events != [] {
      var rest, last := events[..|events| - 1], events[|events| - 1];
      WarningsExplain(prices, rest, w);
      EventWarningsExplain(prices, last, w);
      assert events == rest + [last];
    }
  }

  predicate Misses(w: string, events: seq<Event>, phase: string) {
    !HasPhase(events, phase) && w == "COST_INCOMPLETE: required paid phase " + phase + " is missing"
  }

  lemma {:induction false} PhaseWarningsExplain(events: seq<Event>, required: seq<string>, w: string)
    ensures w in PhaseWarnings(events, required) <==> exists p :: p in required && Misses(w, events, p)
  {
    hide HasPhase;
    if required != [] {
      var rest, last := required[..|required| - 1], required[|required| - 1];
      PhaseWarningsExplain(events, rest, w);
      assert required == rest + [last];
      assert forall p :: p in required <==> p in rest || p == last;
      assert Misses(w, events, last) <==>
        w in if HasPhase(events, last) then [] else ["COST_INCOMPLETE: required paid phase " + last + " is missing"];
    }
  }

  lemma AllWarningsHold(
    mixed: bool, eventWarnings: seq<string>, gbrainBlind: bool, mismatch: bool, phaseWarnings: seq<string>, w: string)
    ensures w in AllWarnings(mixed, eventWarnings, gbrainBlind, mismatch, phaseWarnings) <==>
      || (mixed && w == "METERING_ROLE_MIXED: pass role/candidate filters before reconciliation")
      || w in eventWarnings
      || (gbrainBlind && w == "COST_INCOMPLETE: GBrain native usage was unavailable")
      || (mismatch && w == "METERING_USAGE_MISMATCH: native and proxy query usage differ")
      || w in phaseWarnings
    ensures Sorted(AllWarnings(mixed, eventWarnings, gbrainBlind, mismatch, phaseWarnings), StrLe)
  {
    var a := if mixed then ["METERING_ROLE_MIXED: pass role/candidate filters before reconciliation"] else [];
    var b := if gbrainBlind then ["COST_INCOMPLETE: GBrain native usage was unavailable"] else [];
    var c := if mismatch then ["METERING_USAGE_MISMATCH: native and proxy query usage differ"] else [];
    hide Sort;
    StrLeOrder();
    SortMembers(a + eventWarnings + b + c + phaseWarnings, StrLe);
    SortSorted(a + eventWarnings + b + c + phaseWarnings, StrLe);
  }

  /** The warnings are exactly those that something calls for: mixed roles, an event in scope that stands in the
      way of a total, GBrain's own count missing or different, or a required phase without an event. */
  lemma WarningsExact(
    events: seq<Event>, prices: Option<PriceSheet>, native: Option<Native>, scope: Scope, required: seq<string>,
    dump: Event -> string, round: real -> real, w: string)
    requires exists e :: e in events && InScope(scope, e)
    ensures var s := Reconcile(events, prices, native, scope, required, dump, round);
      var here := FilterEvents(events, scope);
      && Sorted(s.warnings, StrLe)
      && (w in s.warnings <==>
            || (&& scope.role.None? && (exists a, b :: a in events && b in events && a.role != b.role)
                && w == "METERING_ROLE_MIXED: pass role/candidate filters before reconciliation")
            || (exists e :: e in here && Explains(w, e, prices))
            || (native.None? && !OwnCountAgrees(events, native, scope)
                && w == "COST_INCOMPLETE: GBrain native usage was unavailable")
            || (native.Some? && !OwnCountAgrees(events, native, scope)
                && w == "METERING_USAGE_MISMATCH: native and proxy query usage differ")
            || (exists p :: p in required && Misses(w, here, p)))
  {
    hide *;
    SelectedIsFiltered(events, scope, dump);
    FilterMembers(events, scope);
    SelectedFacts(events, prices, scope, dump);
    var selected, here := Selected(events, scope, dump), FilterEvents(events, scope);
    WarningsOf(events, prices, native, scope, required, dump, round);
    WarningsExplain(prices, selected, w);
    PhaseWarningsExplain(selected, required, w);
    SamePhases(selected, here);
    AllWarningsHold(MixedRoles(events, scope), Warnings(prices, selected), GBrainBlind(native, selected),
      Mismatch(native, selected), PhaseWarnings(selected, required), w);
    MixedRolesAre(events, scope);
    BlindAndMismatch(native, selected);
    BlindAndMismatch(native, here);
    OwnCountIff(events, native, scope);
    forall p ensures Misses(w, selected, p) <==> Misses(w, here, p) { MissesAre(w, selected, here, p); }
  }

  lemma SamePhases(a: seq<Event>, b: seq<Event>)
    requires forall e :: e in a <==> e in b
    ensures forall p :: HasPhase(a, p) <==> HasPhase(b, p)
  {
  }

  lemma MissesAre(w: string, a: seq<Event>, b: seq<Event>, p: string)
    requires HasPhase(a, p) <==> HasPhase(b, p)
    ensures Misses(w, a, p) <==> Misses(w, b, p)
  {
    hide HasPhase;
  }

  lemma MixedRolesAre(events: seq<Event>, scope: Scope)
    ensures MixedRoles(events, scope) <==>
      scope.role.None? && exists a, b :: a in events && b in events && a.role != b.role
  {
  }

  lemma BlindAndMismatch(native: Option<Native>, events: seq<Event>)
    ensures GBrainBlind(native, events) <==> HasGBrain(events) && native.None?
    ensures Mismatch(native, events) <==> native.Some? && !NativeMatches(native.value, events)
  {
    hide HasGBrain, NativeMatches;
  }

  lemma WarningsOf(
    events: seq<Event>, prices: Option<PriceSheet>, native: Option<Native>, scope: Scope, required: seq<string>,
    dump: Event -> string, round: real -> real)
    requires Selected(events, scope, dump) != []
    ensures var selected := Selected(events, scope, dump);
      Reconcile(events, prices, native, scope, required, dump, round).warnings ==
        AllWarnings(MixedRoles(events, scope), Warnings(prices, selected), GBrainBlind(native, selected),
          Mismatch(native, selected), PhaseWarnings(selected, required))
  {
    hide Selected, MixedRoles, Warnings, GBrainBlind, Mismatch, PhaseWarnings, AllWarnings, CostComplete, InputSum,
      OutputSum, PricedSum, StatusOf, SummarySource;
  }

  // ----- conservation -----

  function CandidateScope(candidate: string): Scope {
    Scope(None, Some(candidate), None)
  }

  /** The unrounded totals of the candidates' slices, added up. */
  function SliceTotals(prices: PriceSheet, events: seq<Event>, candidates: seq<string>): (total: real) {
    if candidates == [] then 0.0
    else PricedSum(Some(prices), FilterEvents(events, CandidateScope(candidates[0])))
         + SliceTotals(prices, events, candidates[1..])
  }

  lemma {:induction false} LastEventInOneSlice(prices: PriceSheet, events: seq<Event>, candidates: seq<string>)
    requires events != [] && Distinct(candidates)
    requires FullyPriced(prices, events[|events| - 1])
    ensures SliceTotals(prices, events, candidates) ==
      SliceTotals(prices, events[..|events| - 1], candidates)
      + if events[|events| - 1].candidate in candidates then CostOrZero(prices, events[|events| - 1]) else 0.0
  {
    if candidates != [] {
      var last, tail := events[|events| - 1], candidates[1..];
      assert forall i :: 0 <= i < |tail| ==> tail[i] == candidates[i + 1];
      LastEventInOneSlice(prices, events, tail);
      var slice := FilterEvents(events[..|events| - 1], CandidateScope(candidates[0]));
      assert (slice + [last])[..|slice + [last]| - 1] == slice;
    }
  }

  lemma {:induction false} SlicesCoverLedger(prices: PriceSheet, events: seq<Event>, candidates: seq<string>)
    requires Distinct(candidates)
    requires forall e :: e in events ==> e.candidate in candidates && FullyPriced(prices, e)
    ensures SliceTotals(prices, events, candidates) == TotalCost(prices, events)
  {
    if events == [] {
      EmptySlices(prices, candidates);
    } else {
      LastEventInOneSlice(prices, events, candidates);
      SlicesCoverLedger(prices, events[..|events| - 1], candidates);
    }
  }

  lemma {:induction false} EmptySlices(prices: PriceSheet, candidates: seq<string>)
    ensures SliceTotals(prices, [], candidates) == 0.0
  {
    if candidates != [] { EmptySlices(prices, candidates[1..]); }
  }

  /** When every candidate's slice of an all-candidate ledger reconciles as COMPLETE, the unrounded
      slice totals add up to exactly what the ledger has spent, however its calls interleaved. */
  lemma CompleteSlicesSumToSpend(
    budget: real, prices: PriceSheet, steps: seq<RecordStep>, candidates: seq<string>,
    native: string -> Option<Native>, required: seq<string>, dump: Event -> string, round: real -> real)
    requires budget > 0.0 && Distinct(candidates)
    requires var events := RunShared(Start(budget, prices), steps).ledger.events;
      && (forall e :: e in events ==> e.role == CANDIDATE && e.candidate in candidates)
      && (forall c :: c in candidates ==>
            Reconcile(events, Some(prices), native(c), CandidateScope(c), required, dump, round).status == COMPLETE)
    ensures var l := RunShared(Start(budget, prices), steps).ledger;
      SliceTotals(prices, l.events, candidates) == l.spent
  {
    var l := RunShared(Start(budget, prices), steps).ledger;
    LedgerStaysBalanced(Start(budget, prices), steps);
    forall e | e in l.events ensures FullyPriced(prices, e) {
      TotalIffComplete(l.events, Some(prices), native(e.candidate), CandidateScope(e.candidate), required, dump, round);
      assert InScope(CandidateScope(e.candidate), e);
    }
    SlicesCoverLedger(prices, l.events, candidates);
  }
}
