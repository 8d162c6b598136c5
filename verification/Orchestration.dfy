/** Running the candidates one after another under a hard budget, and cleaning each up once. */
module Orchestration {
  import opened Options

  datatype Status = OK | FAILED | CANCELLED | BUDGET_EXCEEDED | LEAKAGE_DETECTED | OTHER(code: nat)

  datatype Outcome = Outcome(candidate: string, status: Status, costUsd: Option<real>)

  /** What `candidate.run` did: returned, was interrupted or noticed a cancellation, or raised. `Killed` is a
      BaseException that is none of these, such as SystemExit: nothing in the workflow or in `run` catches
      it. */
  datatype Behaviour = Returned(outcome: Outcome) | Interrupted | Raised | Killed

  function CostOf(o: Outcome): real {
    if o.costUsd.Some? then o.costUsd.value else 0.0
  }

  function TotalCost(results: seq<Outcome>): (total: real) {
    if results == [] then 0.0 else TotalCost(results[..|results| - 1]) + CostOf(results[|results| - 1])
  }

  function Estimate(questions: nat): (e: real)
    ensures e >= 0.5 && e >= questions as real * 0.05 && (e == 0.5 || e == questions as real * 0.05)
  {
    if questions as real * 0.05 > 0.5 then questions as real * 0.05 else 0.5
  }

  /** What is recorded for a candidate that was run with `spent` already on the account. */
  function Settled(candidate: string, behaviour: Behaviour, spent: real, budget: real): (o: Outcome)
    requires !behaviour.Killed?
  {
    match behaviour
    case Interrupted => Outcome(candidate, CANCELLED, None)
    case Raised => Outcome(candidate, FAILED, None)
    case Returned(o) =>
      if o.costUsd.Some? && spent + o.costUsd.value > budget then o.(status := BUDGET_EXCEEDED) else o
  }

  predicate AnyExceeded(results: seq<Outcome>) {
    exists i :: 0 <= i < |results| && results[i].status == BUDGET_EXCEEDED
  }

  /** The rule for starting the next candidate after `results`. */
  predicate MayStart(results: seq<Outcome>, questions: nat, budget: real, cancelled: bool) {
    !cancelled && !AnyExceeded(results) && TotalCost(results) + Estimate(questions) < budget
  }

  /** One recorded result, given everything recorded before it. */
  predicate FollowsRule(
    before: seq<Outcome>, o: Outcome, candidate: string, questions: nat, budget: real, cancelled: bool, run: Behaviour)
  {
    if MayStart(before, questions, budget, cancelled) then
      !run.Killed? && o == Settled(candidate, run, TotalCost(before), budget)
    else o == Outcome(candidate, if cancelled then CANCELLED else BUDGET_EXCEEDED, None)
  }

  /** Every result follows the rule from the results before it. */
  predicate AllFollowRule(
    results: seq<Outcome>, candidates: seq<string>, questions: nat, budget: real, cancelledAt: nat -> bool,
    runs: nat -> Behaviour)
    requires |results| <= |candidates|
  {
    if results == [] then true
    else
      var i := |results| - 1;
      && AllFollowRule(results[..i], candidates, questions, budget, cancelledAt, runs)
      && FollowsRule(results[..i], results[i], candidates[i], questions, budget, cancelledAt(i), runs(i))
  }

  /** CANCELLED can only be the last entry. */
  predicate CancelledOnlyLast(results: seq<Outcome>) {
    forall i :: 0 <= i < |results| - 1 ==> results[i].status != CANCELLED
  }

  lemma NothingRun(
    candidates: seq<string>, questions: nat, budget: real, cancelledAt: nat -> bool, runs: nat -> Behaviour)
    ensures Account([], questions, budget, 0.0, Estimate(questions), false)
    ensures AllFollowRule([], candidates, questions, budget, cancelledAt, runs)
  {
  }

  lemma AppendFollowsRule(
    results: seq<Outcome>, o: Outcome, candidates: seq<string>, questions: nat, budget: real,
    cancelledAt: nat -> bool, runs: nat -> Behaviour)
    requires |results| < |candidates|
    requires AllFollowRule(results, candidates, questions, budget, cancelledAt, runs)
    requires FollowsRule(results, o, candidates[|results|], questions, budget, cancelledAt(|results|), runs(|results|))
    ensures AllFollowRule(results + [o], candidates, questions, budget, cancelledAt, runs)
  {
    assert (results + [o])[..|results|] == results;
  }

  lemma AppendOutcome(results: seq<Outcome>, o: Outcome)
    ensures TotalCost(results + [o]) == TotalCost(results) + CostOf(o)
    ensures AnyExceeded(results + [o]) <==> AnyExceeded(results) || o.status == BUDGET_EXCEEDED
  {
    var longer := results + [o];
    assert longer[..|longer| - 1] == results;
    assert o.status == BUDGET_EXCEEDED ==> longer[|results|].status == BUDGET_EXCEEDED;
    if AnyExceeded(results) {
      var i :| 0 <= i < |results| && results[i].status == BUDGET_EXCEEDED;
      assert longer[i].status == BUDGET_EXCEEDED;
    }
  }

  // ----- cleanup -----

  /** What `candidate.cleanup` did. `Fatal` is a BaseException that is neither an Exception nor a
      keyboard interrupt. */
  datatype Cleanup = Receipt(complete: bool) | NoReceipt | KeyboardStop | CleanupRaised | Fatal

  /** Where an interrupt or exception leaves the workflow's own cleanup loop: in front of candidate
      `i`; with `i` marked as attempted but not yet called; or after `i` was called, its failure
      already noted or not. */
  datatype Point = Before(i: nat) | Marked(i: nat) | Called(i: nat, noted: bool)

  /** Position `i` is the first candidate with its id. */
  predicate FirstOfItsId(candidates: seq<string>, i: nat)
    requires i < |candidates|
  {
    candidates[i] !in candidates[..i]
  }

  /** The loop gets to the point. A candidate whose id came up before is skipped. */
  predicate Reached(candidates: seq<string>, point: Option<Point>) {
    match point
    case None => false
    case Some(Before(i)) => i <= |candidates|
    case Some(Marked(i)) => i < |candidates| && FirstOfItsId(candidates, i)
    case Some(Called(i, _)) => i < |candidates| && FirstOfItsId(candidates, i)
  }

  /** How many candidates are dealt with when the loop is left there. */
  function DealtWith(candidates: seq<string>, point: Option<Point>): (k: nat)
    ensures k <= |candidates|
  {
    if !Reached(candidates, point) then |candidates|
    else if point.value.Before? then point.value.i
    else point.value.i + 1
  }

  /** The candidate that stays marked without ever being called, if there is one. */
  function Lost(candidates: seq<string>, point: Option<Point>): (lost: Option<nat>) {
    if Reached(candidates, point) && point.value.Marked? then Some(point.value.i) else None
  }

  /** The first candidates of their ids up to a position, all but a lost one. */
  function Positions(candidates: seq<string>, upTo: nat, lost: Option<nat>): (r: seq<nat>)
    requires upTo <= |candidates|
  {
    if upTo == 0 then []
    else
      Positions(candidates, upTo - 1, lost)
      + if FirstOfItsId(candidates, upTo - 1) && lost != Some(upTo - 1) then [upTo - 1] else []
  }

  function IdsOf(candidates: seq<string>): (ids: set<string>)
    ensures forall c :: c in ids <==> c in candidates
  {
    set c | c in candidates
  }

  /** A cleanup that leaves an error behind in the workflow's own loop, where everything is caught. */
  predicate FailsInside(c: Cleanup) { c !in {NoReceipt, Receipt(true)} }

  /** One that leaves an error behind in the loop of `run`, where an interrupt is kept apart. */
  predicate FailsAfterwards(c: Cleanup) { c in {Receipt(false), CleanupRaised} }

  lemma NoPositions(candidates: seq<string>, lost: Option<nat>)
    ensures Positions(candidates, 0, lost) == []
  {
  }

  // One more candidate: a new position when its id has not come up before.
  lemma PositionsNext(candidates: seq<string>, i: nat, lost: Option<nat>)
    requires i < |candidates|
    ensures IdsOf(candidates[..i + 1]) == IdsOf(candidates[..i]) + {candidates[i]}
    ensures FirstOfItsId(candidates, i) <==> candidates[i] !in IdsOf(candidates[..i])
    ensures Positions(candidates, i + 1, lost) ==
      Positions(candidates, i, lost) + if FirstOfItsId(candidates, i) && lost != Some(i) then [i] else []
  {
    assert candidates[..i + 1] == candidates[..i] + [candidates[i]];
    hide Positions;
    PositionsStep(candidates, i, lost);
  }

  lemma PositionsStep(candidates: seq<string>, i: nat, lost: Option<nat>)
    requires i < |candidates|
    ensures Positions(candidates, i + 1, lost) ==
      Positions(candidates, i, lost) + if FirstOfItsId(candidates, i) && lost != Some(i) then [i] else []
  {
  }

  /** The calls are exactly those positions, each once and in order. */
  lemma {:induction false} PositionsExact(candidates: seq<string>, upTo: nat, lost: Option<nat>)
    requires upTo <= |candidates|
    ensures var calls := Positions(candidates, upTo, lost);
      && (forall i :: i in calls <==> 0 <= i < upTo && FirstOfItsId(candidates, i) && lost != Some(i))
      && (forall i, j :: 0 <= i < j < |calls| ==> calls[i] < calls[j])
  {
    hide *;
    if upTo == 0 {
      NoPositions(candidates, lost);
    } else {
      PositionsExact(candidates, upTo - 1, lost);
      PositionsStep(candidates, upTo - 1, lost);
      var before := Positions(candidates, upTo - 1, lost);
      assert forall i :: 0 <= i < |before| ==> before[i] in before;
    }
  }

  // A position is lost no earlier than the loop was left.
  lemma {:induction false} LostLater(candidates: seq<string>, upTo: nat, i: nat)
    requires upTo <= i && upTo <= |candidates|
    ensures Positions(candidates, upTo, Some(i)) == Positions(candidates, upTo, None)
  {
    if upTo > 0 { LostLater(candidates, upTo - 1, i); }
  }

  /** The results written to the ledger: all but the entry of an operator's cancellation. */
  function LedgerRows(results: seq<Outcome>, cancelledAt: nat -> bool): seq<Outcome> {
    if results != [] && cancelledAt(|results| - 1) then results[..|results| - 1] else results
  }

  /** The loop's account: what is spent, the estimate it adds, and whether the budget is used up. */
  ghost predicate Account(results: seq<Outcome>, questions: nat, budget: real, spent: real, estimate: real,
    exhausted: bool) {
    && spent == TotalCost(results)
    && (exhausted || estimate == Estimate(questions))
    && (AnyExceeded(results) ==> exhausted)
    && (exhausted ==> AnyExceeded(results) || spent + Estimate(questions) >= budget)
  }

  /** The next candidate was started, nobody before it was cancelled, and its run was killed. */
  predicate KilledAt(
    results: seq<Outcome>, candidates: seq<string>, questions: nat, budget: real, cancelledAt: nat -> bool,
    runs: nat -> Behaviour)
  {
    && |results| < |candidates| && (forall k :: 0 <= k < |results| ==> results[k].status != CANCELLED)
    && MayStart(results, questions, budget, cancelledAt(|results|)) && runs(|results|).Killed?
  }

  lemma RoomMeans(results: seq<Outcome>, questions: nat, budget: real, spent: real, estimate: real, exhausted: bool)
    requires Account(results, questions, budget, spent, estimate, exhausted)
    requires !exhausted && spent + estimate < budget
    ensures MayStart(results, questions, budget, false)
  {
  }

  /** One turn of the loop for a candidate that finds no cancellation. */
  method TakeTurn(
    ghost results: seq<Outcome>, candidate: string, ghost questions: nat, budget: real, run: Behaviour,
    spent: real, estimate: real, exhausted: bool)
    returns (outcome: Outcome, spent': real, estimate': real, exhausted': bool)
    requires Account(results, questions, budget, spent, estimate, exhausted)
    requires run.Killed? ==> exhausted || spent + estimate >= budget
    ensures FollowsRule(results, outcome, candidate, questions, budget, false, run)
    ensures Account(results + [outcome], questions, budget, spent', estimate', exhausted')
  {
    spent', estimate', exhausted' := spent, estimate, exhausted;
    if exhausted || spent + estimate >= budget {
      outcome := Outcome(candidate, BUDGET_EXCEEDED, None);
      exhausted' := true;
    } else {
      outcome := Settled(candidate, run, spent, budget);
      if outcome.costUsd.Some? { spent' := spent + outcome.costUsd.value; }
      if outcome.status == BUDGET_EXCEEDED { exhausted' := true; }
      if spent' >= budget {
        estimate' := budget;
        exhausted' := true;
      }
    }
    AppendOutcome(results, outcome);
  }

  // ----- the workflow around the candidates -----

  /** What the workflow's handlers turn an interruption into. */
  datatype Stop = Interrupt | Exception

  function StopStatus(stop: Stop): (s: Status) { if stop.Interrupt? then CANCELLED else FAILED }

  /** How the workflow goes, apart from its candidates: a gate before them closes; something stops it
      before its own cleanup; the cleanup is stopped at a point; something stops it after that; or it
      comes to its end. */
  datatype Course =
    | AtGate(status: Status) | BeforeCleanup(stop: Stop) | InCleanup(point: Point, stop: Stop)
    | AfterCleanup(stop: Stop) | ToTheEnd

  predicate AnyCancelled(results: seq<Outcome>) {
    exists i :: 0 <= i < |results| && results[i].status == CANCELLED
  }

  /** The workflow gets past its candidates and the output scan, to its own cleanup. */
  predicate ReachesCleanup(course: Course, results: seq<Outcome>, leaks: bool) {
    !course.AtGate? && !course.BeforeCleanup? && !AnyCancelled(results) && !leaks
  }

  /** The point at which the workflow's own cleanup is left early, and the start if it never begins. */
  function LeftAt(course: Course, results: seq<Outcome>, leaks: bool): (point: Option<Point>) {
    if !ReachesCleanup(course, results, leaks) then Some(Before(0))
    else if course.InCleanup? then Some(course.point)
    else None
  }

  function WorkflowStatus(course: Course, results: seq<Outcome>, leaks: bool, candidates: seq<string>): (s: Status) {
    if course.AtGate? then course.status
    else if course.BeforeCleanup? then StopStatus(course.stop)
    else if AnyCancelled(results) then CANCELLED
    else if leaks then LEAKAGE_DETECTED
    else if course.InCleanup? && Reached(candidates, Some(course.point)) then StopStatus(course.stop)
    else if course.AfterCleanup? then StopStatus(course.stop)
    else if AnyExceeded(results) then BUDGET_EXCEEDED
    else OK
  }

  /** A called cleanup left an error behind, in whichever of the two loops it was called. */
  predicate ErrorAt(candidates: seq<string>, point: Option<Point>, inside: nat -> Cleanup, afterwards: nat -> Cleanup,
    c: nat) {
    if c < DealtWith(candidates, point) then FailsInside(inside(c)) && point != Some(Called(c, false))
    else FailsAfterwards(afterwards(c))
  }

  ghost predicate AnyError(
    candidates: seq<string>, point: Option<Point>, inside: nat -> Cleanup, afterwards: nat -> Cleanup, calls: seq<nat>)
  {
    exists c :: c in calls && ErrorAt(candidates, point, inside, afterwards, c)
  }

  ghost predicate AnyInterrupt(candidates: seq<string>, point: Option<Point>, afterwards: nat -> Cleanup,
    calls: seq<nat>) {
    exists c :: c in calls && c >= DealtWith(candidates, point) && afterwards(c) == KeyboardStop
  }

  /** The workflow is left by an error that nothing catches: it ran the candidates, not all of them have a
      result, and none was cancelled. */
  predicate DiesIn(course: Course, results: seq<Outcome>, candidates: seq<string>) {
    !course.AtGate? && !course.BeforeCleanup? && |results| < |candidates| && !AnyCancelled(results)
  }

  lemma DiesIs(
    course: Course, results: seq<Outcome>, candidates: seq<string>, questions: nat, budget: real,
    cancelledAt: nat -> bool, runs: nat -> Behaviour, killed: bool)
    requires killed ==>
      !course.AtGate? && !course.BeforeCleanup? && KilledAt(results, candidates, questions, budget, cancelledAt, runs)
    requires !killed && !course.AtGate? && !course.BeforeCleanup? && |results| < |candidates| ==>
      results != [] && results[|results| - 1].status == CANCELLED
    ensures DiesIn(course, results, candidates) <==> killed
  {
    hide MayStart;
  }

  /** How `run` ends: with a result, by an exception from its last loop, or refused on second use. */
  datatype Ending = Finished(status: Status) | Escaped | SingleUse

  /** The last loop of `run` is left at candidate `i`: by an interrupt outside the cleanups, or by a fatal
      error of a cleanup that was left to this loop. */
  predicate LeavesAt(candidates: seq<string>, k: nat, afterwards: nat -> Cleanup, stray: Option<Point>, i: nat)
    requires i < |candidates|
  {
    || stray == Some(Before(i))
    || (i >= k && FirstOfItsId(candidates, i)
        && (afterwards(i) == Fatal || stray in {Some(Marked(i)), Some(Called(i, true)), Some(Called(i, false))}))
  }

  /** From `i` on, the first candidate at which it is left. */
  function EscapesFrom(candidates: seq<string>, k: nat, afterwards: nat -> Cleanup, stray: Option<Point>,
    i: nat): (e: nat)
    requires i <= |candidates|
    ensures i <= e <= |candidates|
    decreases |candidates| - i
  {
    if i == |candidates| || LeavesAt(candidates, k, afterwards, stray, i) then i
    else EscapesFrom(candidates, k, afterwards, stray, i + 1)
  }

  /** That is the first one, if there is one. */
  lemma {:induction false} EscapesExact(
    candidates: seq<string>, k: nat, afterwards: nat -> Cleanup, stray: Option<Point>, i: nat)
    requires i <= |candidates|
    ensures var e := EscapesFrom(candidates, k, afterwards, stray, i);
      && (e < |candidates| ==> LeavesAt(candidates, k, afterwards, stray, e))
      && (forall j :: i <= j < e ==> !LeavesAt(candidates, k, afterwards, stray, j))
    decreases |candidates| - i
  {
    hide LeavesAt;
    if i < |candidates| { EscapesExact(candidates, k, afterwards, stray, i + 1); }
  }

  lemma EscapeNext(candidates: seq<string>, k: nat, afterwards: nat -> Cleanup, stray: Option<Point>, i: nat)
    requires i < |candidates| && i <= EscapesFrom(candidates, k, afterwards, stray, 0)
    ensures LeavesAt(candidates, k, afterwards, stray, i) <==> i == EscapesFrom(candidates, k, afterwards, stray, 0)
  {
    hide LeavesAt;
    EscapesExact(candidates, k, afterwards, stray, 0);
  }

  /** An exception leaves the last loop of `run`, or what follows it. */
  predicate Escapes(candidates: seq<string>, k: nat, afterwards: nat -> Cleanup, stray: Option<Point>) {
    EscapesFrom(candidates, k, afterwards, stray, 0) < |candidates| || stray == Some(Before(|candidates|))
  }

  /** How far the candidates are called when `run` ends, given how far the workflow got. */
  function CalledUpTo(candidates: seq<string>, k: nat, afterwards: nat -> Cleanup, stray: Option<Point>): (n: nat)
    requires k <= |candidates|
    ensures n <= |candidates|
  {
    var e := EscapesFrom(candidates, k, afterwards, stray, 0);
    if e == |candidates| then e
    else if stray == Some(Before(e)) then (if e < k then k else e)
    else if stray == Some(Marked(e)) then e
    else e + 1
  }

  lemma LostBefore(candidates: seq<string>, point: Option<Point>)
    ensures Lost(candidates, point).Some? ==> Lost(candidates, point).value < DealtWith(candidates, point)
  {
  }

  lemma NoIds()
    ensures IdsOf([]) == {}
  {
  }

  lemma CallsBefore(candidates: seq<string>, k: nat, lost: Option<nat>)
    requires k <= |candidates|
    ensures forall c :: c in Positions(candidates, k, lost) ==> c < k
  {
    hide FirstOfItsId;
    PositionsExact(candidates, k, lost);
  }

  lemma AttemptedBefore(candidates: seq<string>, k: nat, i: nat)
    requires i < k <= |candidates|
    ensures candidates[i] in IdsOf(candidates[..k])
  {
    assert candidates[..k][i] == candidates[i];
  }

  lemma AnyMeans(
    candidates: seq<string>, point: Option<Point>, inside: nat -> Cleanup, afterwards: nat -> Cleanup, calls: seq<nat>,
    errors: seq<nat>, interruptions: seq<nat>)
    requires forall c :: c in errors <==> c in calls && ErrorAt(candidates, point, inside, afterwards, c)
    requires forall c :: c in interruptions <==>
      c in calls && c >= DealtWith(candidates, point) && afterwards(c) == KeyboardStop
    ensures errors != [] <==> AnyError(candidates, point, inside, afterwards, calls)
    ensures interruptions != [] <==> AnyInterrupt(candidates, point, afterwards, calls)
  {
    hide ErrorAt, DealtWith;
    if errors != [] { assert errors[0] in errors; }
    if interruptions != [] { assert interruptions[0] in interruptions; }
  }

  /** The status `run` reports: a failed cleanup wins over an interrupted one, and that over the
      workflow's own status. */
  ghost function FinalStatus(
    course: Course, results: seq<Outcome>, leaks: bool, candidates: seq<string>, inside: nat -> Cleanup,
    afterwards: nat -> Cleanup, calls: seq<nat>): (s: Status)
  {
    var point := LeftAt(course, results, leaks);
    if AnyError(candidates, point, inside, afterwards, calls) then FAILED
    else if AnyInterrupt(candidates, point, afterwards, calls) then CANCELLED
    else WorkflowStatus(course, results, leaks, candidates)
  }

  lemma FinalStatusIs(
    course: Course, results: seq<Outcome>, leaks: bool, candidates: seq<string>, inside: nat -> Cleanup,
    afterwards: nat -> Cleanup, calls: seq<nat>)
    ensures var point := LeftAt(course, results, leaks);
      FinalStatus(course, results, leaks, candidates, inside, afterwards, calls) ==
        if AnyError(candidates, point, inside, afterwards, calls) then FAILED
        else if AnyInterrupt(candidates, point, afterwards, calls) then CANCELLED
        else WorkflowStatus(course, results, leaks, candidates)
  {
    hide LeftAt, AnyError, AnyInterrupt, WorkflowStatus;
  }

  class RunOrchestrator {
    const budgetUsd: real
    var candidates: seq<string>
    var ledger: seq<Outcome>
    var runStarted: bool
    var cleanupAttempted: set<string>
    /** The positions whose cleanup left an error message. */
    var cleanupErrors: seq<nat>
    /** The positions of the candidates whose `cleanup()` was called, in order. */
    var cleanupCalls: seq<nat>

    /** Before `run` nothing is cleaned up. */
    ghost predicate Valid()
      reads this
    {
      !runStarted ==> cleanupAttempted == {} && cleanupErrors == [] && cleanupCalls == []
    }

    constructor (budgetUsd: real, candidates: seq<string>)
      ensures this.budgetUsd == budgetUsd && this.candidates == candidates
      ensures Valid() && !runStarted && ledger == []
    {
      this.budgetUsd, this.candidates := budgetUsd, candidates;
      ledger, runStarted, cleanupAttempted, cleanupErrors, cleanupCalls := [], false, {}, [], [];
    }

    /** Every recorded result follows the starting rule, so the rule decides exactly who runs; the
        loop stops early only behind a CANCELLED entry, or by an error that kills a started candidate. */
    method RunCandidates(questions: nat, cancelledAt: nat -> bool, runs: nat -> Behaviour)
      returns (results: seq<Outcome>, killed: bool)
      modifies this`ledger
      ensures |results| <= |candidates|
      ensures AllFollowRule(results, candidates, questions, budgetUsd, cancelledAt, runs)
      ensures CancelledOnlyLast(results)
      ensures killed ==> KilledAt(results, candidates, questions, budgetUsd, cancelledAt, runs)
      ensures !killed && |results| < |candidates| ==> results != [] && results[|results| - 1].status == CANCELLED
      ensures ledger == old(ledger) + if killed then results else LedgerRows(results, cancelledAt)
    {
      hide Account, AllFollowRule, TotalCost, Estimate, AnyExceeded;
      results, killed := [], false;
      var spent, estimate, exhausted := 0.0, Estimate(questions), false;
      NothingRun(candidates, questions, budgetUsd, cancelledAt, runs);
      for i := 0 to |candidates|
        invariant |results| == i && !killed
        invariant Account(results, questions, budgetUsd, spent, estimate, exhausted)
        invariant AllFollowRule(results, candidates, questions, budgetUsd, cancelledAt, runs)
        invariant forall k :: 0 <= k < i ==> results[k].status != CANCELLED
        invariant LedgerRows(results, cancelledAt) == results
        invariant ledger == old(ledger) + results
      {
        if cancelledAt(i) {
          var stopped := Outcome(candidates[i], CANCELLED, None);
          assert FollowsRule(results, stopped, candidates[i], questions, budgetUsd, true, runs(i));
          AppendFollowsRule(results, stopped, candidates, questions, budgetUsd, cancelledAt, runs);
          assert LedgerRows(results + [stopped], cancelledAt) == results;
          return results + [stopped], false;
        }
        if !exhausted && spent + estimate < budgetUsd && runs(i).Killed? {
          RoomMeans(results, questions, budgetUsd, spent, estimate, exhausted);
          return results, true;
        }
        var outcome;
        outcome, spent, estimate, exhausted :=
          TakeTurn(results, candidates[i], questions, budgetUsd, runs(i), spent, estimate, exhausted);
        AppendFollowsRule(results, outcome, candidates, questions, budgetUsd, cancelledAt, runs);
        results := results + [outcome];
        ledger := ledger + [outcome];
        if outcome.status == CANCELLED { return; }
      }
    }

    /** The cleanup inside the workflow: whatever a cleanup raises is caught, but the loop may be left
        early, at a point between two cleanups or in the bookkeeping around one. */
    method CleanupCandidates(cleanups: nat -> Cleanup, point: Option<Point>) returns (stopped: bool)
      requires cleanupAttempted == {} && cleanupErrors == [] && cleanupCalls == []
      modifies this`cleanupAttempted, this`cleanupErrors, this`cleanupCalls
      ensures stopped <==> Reached(candidates, point)
      ensures cleanupAttempted == IdsOf(candidates[..DealtWith(candidates, point)])
      ensures cleanupCalls == Positions(candidates, DealtWith(candidates, point), Lost(candidates, point))
      ensures forall c :: c in cleanupErrors <==>
        c in cleanupCalls && FailsInside(cleanups(c)) && point != Some(Called(c, false))
    {
      hide Positions, FirstOfItsId, IdsOf, FailsInside;
      assert candidates[..0] == [];
      NoPositions(candidates, None);
      NoIds();
      for i := 0 to |candidates|
        invariant cleanupAttempted == IdsOf(candidates[..i])
        invariant cleanupCalls == Positions(candidates, i, None)
        invariant forall c :: c in cleanupErrors <==> c in cleanupCalls && FailsInside(cleanups(c))
        invariant forall c :: c in cleanupCalls ==> point != Some(Called(c, false))
        invariant Reached(candidates, point) ==> i <= point.value.i
      {
        if point == Some(Before(i)) { return true; }
        PositionsNext(candidates, i, None);
        if candidates[i] in cleanupAttempted { continue; }
        cleanupAttempted := cleanupAttempted + {candidates[i]};
        if point == Some(Marked(i)) {
          PositionsNext(candidates, i, Some(i));
          LostLater(candidates, i, i);
          return true;
        }
        cleanupCalls := cleanupCalls + [i];
        if FailsInside(cleanups(i)) && point != Some(Called(i, false)) { cleanupErrors := cleanupErrors + [i]; }
        if point == Some(Called(i, true)) || point == Some(Called(i, false)) { return true; }
      }
      assert candidates[..|candidates|] == candidates;
      stopped := point == Some(Before(|candidates|));
    }

    /** The workflow as far as the candidates and their cleanup are concerned. */
    method RunWorkflow(
      course: Course, questions: nat, cancelledAt: nat -> bool, runs: nat -> Behaviour, leaks: bool,
      inside: nat -> Cleanup)
      returns (status: Status, results: seq<Outcome>, killed: bool)
      requires cleanupAttempted == {} && cleanupErrors == [] && cleanupCalls == []
      modifies this`ledger, this`cleanupAttempted, this`cleanupErrors, this`cleanupCalls
      ensures |results| <= |candidates|
      ensures !course.AtGate? && !course.BeforeCleanup? ==>
        && AllFollowRule(results, candidates, questions, budgetUsd, cancelledAt, runs)
        && CancelledOnlyLast(results)
        && (killed ==> KilledAt(results, candidates, questions, budgetUsd, cancelledAt, runs))
        && (!killed && |results| < |candidates| ==> results != [] && results[|results| - 1].status == CANCELLED)
      ensures killed ==> !course.AtGate? && !course.BeforeCleanup? && cleanupCalls == []
      ensures !killed ==> status == WorkflowStatus(course, results, leaks, candidates)
      ensures !killed ==> var point := LeftAt(course, results, leaks);
        && cleanupAttempted == IdsOf(candidates[..DealtWith(candidates, point)])
        && cleanupCalls == Positions(candidates, DealtWith(candidates, point), Lost(candidates, point))
        && (forall c :: c in cleanupErrors <==>
              c in cleanupCalls && FailsInside(inside(c)) && point != Some(Called(c, false)))
    {
      hide Positions, IdsOf, FailsInside, AllFollowRule, FirstOfItsId;
      results := [];
      assert candidates[..0] == [];
      NoPositions(candidates, None);
      NoIds();
      if course.AtGate? { return course.status, [], false; }
      if course.BeforeCleanup? { return StopStatus(course.stop), [], false; }
      results, killed := RunCandidates(questions, cancelledAt, runs);
      if killed { return OK, results, true; }
      if AnyCancelled(results) { return CANCELLED, results, false; }
      status := if AnyExceeded(results) then BUDGET_EXCEEDED else OK;
      if leaks { return LEAKAGE_DETECTED, results, false; }
      var point := if course.InCleanup? then Some(course.point) else None;
      var stopped := CleanupCandidates(inside, point);
      if stopped { return StopStatus(course.stop), results, false; }
      if course.AfterCleanup? { status := StopStatus(course.stop); }
    }

    /** The last loop of `run`: the cleanup of every candidate the workflow left unattempted. It starts with
        the workflow's errors and adds its own. */
    method FinishCleanup(
      ghost point: Option<Point>, ghost inside: nat -> Cleanup, afterwards: nat -> Cleanup, stray: Option<Point>)
      returns (escaped: bool, errors: seq<nat>, interruptions: seq<nat>)
      requires cleanupAttempted == IdsOf(candidates[..DealtWith(candidates, point)])
      requires cleanupCalls == Positions(candidates, DealtWith(candidates, point), Lost(candidates, point))
      requires forall c :: c in cleanupErrors <==>
        c in cleanupCalls && FailsInside(inside(c)) && point != Some(Called(c, false))
      modifies this`cleanupAttempted, this`cleanupCalls
      ensures escaped <==> Escapes(candidates, DealtWith(candidates, point), afterwards, stray)
      ensures cleanupCalls ==
        Positions(candidates, CalledUpTo(candidates, DealtWith(candidates, point), afterwards, stray),
          Lost(candidates, point))
      ensures !escaped ==> forall c :: c in errors <==>
        c in cleanupCalls && ErrorAt(candidates, point, inside, afterwards, c)
      ensures !escaped ==> forall c :: c in interruptions <==>
        c in cleanupCalls && c >= DealtWith(candidates, point) && afterwards(c) == KeyboardStop
    {
      hide Positions, IdsOf, FailsInside, FirstOfItsId, EscapesFrom, Reached, DealtWith, Lost;
      ghost var k, lost := DealtWith(candidates, point), Lost(candidates, point);
      escaped, errors, interruptions := false, cleanupErrors, [];
      CallsBefore(candidates, k, lost);
      LostBefore(candidates, point);
      for i := 0 to |candidates|
        invariant !escaped
        invariant cleanupAttempted == IdsOf(candidates[..if i < k then k else i])
        invariant cleanupCalls == Positions(candidates, if i < k then k else i, lost)
        invariant forall c :: c in errors <==> c in cleanupCalls && ErrorAt(candidates, point, inside, afterwards, c)
        invariant forall c :: c in interruptions <==> c in cleanupCalls && c >= k && afterwards(c) == KeyboardStop
        invariant i <= EscapesFrom(candidates, k, afterwards, stray, 0)
      {
        EscapeNext(candidates, k, afterwards, stray, i);
        if stray == Some(Before(i)) { return true, errors, interruptions; }
        PositionsNext(candidates, i, lost);
        if i < k { AttemptedBefore(candidates, k, i); }
        if candidates[i] in cleanupAttempted { continue; }
        cleanupAttempted := cleanupAttempted + {candidates[i]};
        if stray == Some(Marked(i)) { return true, errors, interruptions; }
        cleanupCalls := cleanupCalls + [i];
        match afterwards(i) {
          case Fatal => return true, errors, interruptions;
          case KeyboardStop => interruptions := interruptions + [i];
          case Receipt(complete) => if !complete { errors := errors + [i]; }
          case CleanupRaised => errors := errors + [i];
          case NoReceipt =>
        }
        if stray in {Some(Called(i, true)), Some(Called(i, false))} { return true, errors, interruptions; }
      }
      escaped := stray == Some(Before(|candidates|));
    }

    /** `run`: the workflow, by whichever exit it comes back, and then the cleanup of every candidate it
        left unattempted. Three things leave `run` by an exception: a candidate's run that is killed, after
        which nobody is cleaned up; a fatal error of a cleanup in this loop; and an interrupt in it outside
        the cleanups. */
    method Run(
      course: Course, questions: nat, cancelledAt: nat -> bool, runs: nat -> Behaviour, leaks: bool,
      inside: nat -> Cleanup, afterwards: nat -> Cleanup, stray: Option<Point>)
      returns (end: Ending, results: seq<Outcome>)
      requires Valid()
      modifies this`ledger, this`runStarted, this`cleanupAttempted, this`cleanupErrors, this`cleanupCalls
      ensures Valid() && runStarted && (end == SingleUse <==> old(runStarted))
      ensures old(runStarted) ==> ledger == old(ledger) && cleanupCalls == old(cleanupCalls)
      ensures |results| <= |candidates|
      ensures !old(runStarted) && !course.AtGate? && !course.BeforeCleanup? ==>
        && AllFollowRule(results, candidates, questions, budgetUsd, cancelledAt, runs)
        && CancelledOnlyLast(results)
        && (|results| < |candidates| ==>
              || KilledAt(results, candidates, questions, budgetUsd, cancelledAt, runs)
              || (results != [] && results[|results| - 1].status == CANCELLED))
      ensures !old(runStarted) && DiesIn(course, results, candidates) ==> end.Escaped? && cleanupCalls == []
      ensures !old(runStarted) && !DiesIn(course, results, candidates) ==>
        var point := LeftAt(course, results, leaks);
        var k := DealtWith(candidates, point);
        && (end.Escaped? <==> Escapes(candidates, k, afterwards, stray))
        && cleanupCalls == Positions(candidates, CalledUpTo(candidates, k, afterwards, stray), Lost(candidates, point))
        && (end.Finished? ==>
              end.status == FinalStatus(course, results, leaks, candidates, inside, afterwards, cleanupCalls))
    {
      hide Positions, IdsOf, FailsInside, AllFollowRule, CancelledOnlyLast, AnyError, AnyInterrupt, WorkflowStatus,
        LeftAt,
        DealtWith, Lost, KilledAt, DiesIn, Escapes, CalledUpTo, ErrorAt, FinalStatus;
      if runStarted { return SingleUse, []; }
      runStarted := true;
      var status, killed;
      status, results, killed := RunWorkflow(course, questions, cancelledAt, runs, leaks, inside);
      DiesIs(course, results, candidates, questions, budgetUsd, cancelledAt, runs, killed);
      if killed { return Escaped, results; }
      ghost var point := LeftAt(course, results, leaks);
      var escaped, errors, interruptions := FinishCleanup(point, inside, afterwards, stray);
      if escaped { return Escaped, results; }
      AnyMeans(candidates, point, inside, afterwards, cleanupCalls, errors, interruptions);
      end := Finished(if errors != [] then FAILED else if interruptions != [] then CANCELLED else status);
      FinalStatusIs(course, results, leaks, candidates, inside, afterwards, cleanupCalls);
    }
  }

  // ----- what the starting rule means -----

  lemma {:induction false} RuleAt(
    results: seq<Outcome>, candidates: seq<string>, questions: nat, budget: real, cancelledAt: nat -> bool,
    runs: nat -> Behaviour, i: nat)
    requires |results| <= |candidates| && i < |results|
    requires AllFollowRule(results, candidates, questions, budget, cancelledAt, runs)
    ensures FollowsRule(results[..i], results[i], candidates[i], questions, budget, cancelledAt(i), runs(i))
    decreases |results|
  {
    if i < |results| - 1 {
      RuleAt(results[..|results| - 1], candidates, questions, budget, cancelledAt, runs, i);
      assert results[..|results| - 1][..i] == results[..i];
    }
  }

  /** What is recorded of a candidate, by whether it was started and what its run did: an interrupt is
      CANCELLED and an error FAILED, both without a cost; an outcome that is returned is kept as it is, but for
      the mark when its cost takes the account over the budget. */
  lemma RecordedAsItRan(
    results: seq<Outcome>, candidates: seq<string>, questions: nat, budget: real, cancelledAt: nat -> bool,
    runs: nat -> Behaviour, i: nat)
    requires |results| <= |candidates| && i < |results|
    requires AllFollowRule(results, candidates, questions, budget, cancelledAt, runs)
    ensures var o := results[i];
      var started := MayStart(results[..i], questions, budget, cancelledAt(i));
      && (cancelledAt(i) ==> o == Outcome(candidates[i], CANCELLED, None))
      && (!cancelledAt(i) && !started ==> o == Outcome(candidates[i], BUDGET_EXCEEDED, None))
      && (started ==> !runs(i).Killed?)
      && (started && runs(i).Interrupted? ==> o == Outcome(candidates[i], CANCELLED, None))
      && (started && runs(i).Raised? ==> o == Outcome(candidates[i], FAILED, None))
      && (started && runs(i).Returned? ==>
            var returned := runs(i).outcome;
            var over := returned.costUsd.Some? && TotalCost(results[..i]) + returned.costUsd.value > budget;
            && o.candidate == returned.candidate && o.costUsd == returned.costUsd
            && o.status == if over then BUDGET_EXCEEDED else returned.status)
  {
    RuleAt(results, candidates, questions, budget, cancelledAt, runs, i);
    hide AllFollowRule, TotalCost, AnyExceeded, Estimate;
  }

  /** The first started candidate that is interrupted, or whose turn finds the cancellation, is recorded as
      CANCELLED and is the last with a result. The workflow then reports CANCELLED unless something stops it
      first, and leaves the whole cleanup to `run`. */
  lemma InterruptEndsTheRun(
    results: seq<Outcome>, candidates: seq<string>, questions: nat, budget: real, cancelledAt: nat -> bool,
    runs: nat -> Behaviour, i: nat, course: Course, leaks: bool)
    requires |results| <= |candidates| && i < |candidates| && i <= |results|
    requires AllFollowRule(results, candidates, questions, budget, cancelledAt, runs) && CancelledOnlyLast(results)
    requires |results| < |candidates| ==>
      || KilledAt(results, candidates, questions, budget, cancelledAt, runs)
      || (results != [] && results[|results| - 1].status == CANCELLED)
    requires forall j :: 0 <= j < i ==> results[j].status != CANCELLED
    requires cancelledAt(i) || (MayStart(results[..i], questions, budget, false) && runs(i).Interrupted?)
    ensures |results| == i + 1 && results[i] == Outcome(candidates[i], CANCELLED, None)
    ensures !ReachesCleanup(course, results, leaks) && LeftAt(course, results, leaks) == Some(Before(0))
    ensures WorkflowStatus(course, results, leaks, candidates) ==
      if course.AtGate? then course.status else if course == BeforeCleanup(Exception) then FAILED else CANCELLED
    ensures forall inside, afterwards, calls :: !course.AtGate? ==>
      FinalStatus(course, results, leaks, candidates, inside, afterwards, calls) in {CANCELLED, FAILED}
  {
    if i == |results| {
      assert false;
    }
    RecordedAsItRan(results, candidates, questions, budget, cancelledAt, runs, i);
    hide AllFollowRule, TotalCost, AnyExceeded, Estimate, AnyError, AnyInterrupt;
    assert results[i].status == CANCELLED;
  }

  /** A result is CANCELLED for one of three reasons only. */
  lemma CancelledIff(
    results: seq<Outcome>, candidates: seq<string>, questions: nat, budget: real, cancelledAt: nat -> bool,
    runs: nat -> Behaviour, i: nat)
    requires |results| <= |candidates| && i < |results|
    requires AllFollowRule(results, candidates, questions, budget, cancelledAt, runs)
    ensures results[i].status == CANCELLED <==>
      || cancelledAt(i)
      || (&& MayStart(results[..i], questions, budget, false)
          && (|| runs(i).Interrupted?
              || (&& runs(i).Returned? && runs(i).outcome.status == CANCELLED
                  && TotalCost(results[..i]) + CostOf(runs(i).outcome) <= budget)))
  {
    RecordedAsItRan(results, candidates, questions, budget, cancelledAt, runs, i);
    hide AllFollowRule, AnyExceeded, TotalCost;
  }

  /** The status `run` reports, reason by reason, for a workflow that got past its gates. */
  lemma FinalStatusTells(
    course: Course, results: seq<Outcome>, leaks: bool, candidates: seq<string>, inside: nat -> Cleanup,
    afterwards: nat -> Cleanup, calls: seq<nat>)
    requires course.ToTheEnd? && forall c :: c in calls ==> c < |candidates|
    ensures var s := FinalStatus(course, results, leaks, candidates, inside, afterwards, calls);
      var own := !AnyCancelled(results) && !leaks;
      var bad := (c: nat) =>
        if own then inside(c) !in {NoReceipt, Receipt(true)} else afterwards(c) in {Receipt(false), CleanupRaised};
      var failed := exists c :: c in calls && bad(c);
      var interrupted := !own && exists c :: c in calls && afterwards(c) == KeyboardStop;
      && (failed ==> s == FAILED)
      && (!failed && interrupted ==> s == CANCELLED)
      && (!failed && !interrupted ==>
            && (s == CANCELLED <==> AnyCancelled(results))
            && (s == LEAKAGE_DETECTED <==> !AnyCancelled(results) && leaks)
            && (s == BUDGET_EXCEEDED <==> own && AnyExceeded(results))
            && (s == OK <==> own && !AnyExceeded(results)))
  {
    hide AnyCancelled, AnyExceeded;
    var point := LeftAt(course, results, leaks);
    assert DealtWith(candidates, point) == if !AnyCancelled(results) && !leaks then |candidates| else 0;
  }

  /** After the first BUDGET_EXCEEDED outcome nobody runs: every later entry costs nothing and says
      BUDGET_EXCEEDED, or CANCELLED when the operator stopped there. */
  lemma NobodyRunsOverBudget(
    results: seq<Outcome>, candidates: seq<string>, questions: nat, budget: real, cancelledAt: nat -> bool,
    runs: nat -> Behaviour, i: nat, j: nat)
    requires |results| <= |candidates| && i < j < |results|
    requires AllFollowRule(results, candidates, questions, budget, cancelledAt, runs)
    requires results[i].status == BUDGET_EXCEEDED
    ensures !MayStart(results[..j], questions, budget, cancelledAt(j))
    ensures results[j] == Outcome(candidates[j], if cancelledAt(j) then CANCELLED else BUDGET_EXCEEDED, None)
  {
    RuleAt(results, candidates, questions, budget, cancelledAt, runs, j);
    assert results[..j][i].status == BUDGET_EXCEEDED;
  }

  /** Every started candidate found spend plus estimate below the cap. So the account ends either
      untouched, or below the cap less the estimate plus the cost of the last candidate run. */
  lemma {:induction false} SpendStaysUnderCap(
    results: seq<Outcome>, candidates: seq<string>, questions: nat, budget: real, cancelledAt: nat -> bool,
    runs: nat -> Behaviour)
    requires |results| <= |candidates|
    requires AllFollowRule(results, candidates, questions, budget, cancelledAt, runs)
    ensures TotalCost(results) == 0.0 || exists k: nat ::
      && k < |results|
      && MayStart(results[..k], questions, budget, cancelledAt(k))
      && TotalCost(results) == TotalCost(results[..k]) + CostOf(results[k])
      && TotalCost(results) < budget - Estimate(questions) + CostOf(results[k])
  {
    if results != [] {
      var n := |results| - 1;
      if !MayStart(results[..n], questions, budget, cancelledAt(n)) && TotalCost(results) != 0.0 {
        SpendStaysUnderCap(results[..n], candidates, questions, budget, cancelledAt, runs);
        var k: nat :|
          && k < n
          && MayStart(results[..n][..k], questions, budget, cancelledAt(k))
          && TotalCost(results[..n]) == TotalCost(results[..n][..k]) + CostOf(results[..n][k])
          && TotalCost(results[..n]) < budget - Estimate(questions) + CostOf(results[..n][k]);
        assert results[..n][..k] == results[..k];
      }
    }
  }

  lemma OverBudgetMark(candidate: string, run: Behaviour, spent: real, budget: real)
    requires spent <= budget && !run.Killed?
    ensures Settled(candidate, run, spent, budget).status == BUDGET_EXCEEDED <==>
      ReportsExceeded(run) || spent + CostOf(Settled(candidate, run, spent, budget)) > budget
  {
  }

  /** The candidate says itself that it went over budget. */
  predicate ReportsExceeded(run: Behaviour) { run.Returned? && run.outcome.status == BUDGET_EXCEEDED }

  /** There was room on the account when the turn of candidate `i` came, and it did not overdraw it. */
  predicate StaysInside(results: seq<Outcome>, questions: nat, budget: real, runs: nat -> Behaviour, i: nat)
    requires i < |results|
  {
    TotalCost(results[..i]) + Estimate(questions) < budget && TotalCost(results[..i + 1]) <= budget
      && !ReportsExceeded(runs(i))
  }

  /** No outcome says BUDGET_EXCEEDED exactly when every candidate whose turn was not cancelled found room
      for its estimate, left the account within the cap, and did not report itself over budget. */
  lemma {:induction false} NobodyExceededIff(
    results: seq<Outcome>, candidates: seq<string>, questions: nat, budget: real, cancelledAt: nat -> bool,
    runs: nat -> Behaviour)
    requires |results| <= |candidates|
    requires AllFollowRule(results, candidates, questions, budget, cancelledAt, runs)
    ensures !AnyExceeded(results) <==>
      forall i: nat :: i < |results| && !cancelledAt(i) ==> StaysInside(results, questions, budget, runs, i)
  {
    hide *;
    if results == [] {
      NoOutcome();
    } else {
      var n := |results| - 1;
      var before := results[..n];
      RulePrefix(results, candidates, questions, budget, cancelledAt, runs);
      NobodyExceededIff(before, candidates, questions, budget, cancelledAt, runs);
      assert results == before + [results[n]] && results[..n + 1] == results;
      AppendOutcome(before, results[n]);
      forall i: nat | i < n
        ensures StaysInside(before, questions, budget, runs, i) <==> StaysInside(results, questions, budget, runs, i)
      {
        assert before[..i] == results[..i] && before[..i + 1] == results[..i + 1];
        SameTurn(before, results, questions, budget, runs, i);
      }
      LastTurn(results, candidates[n], questions, budget, cancelledAt(n), runs, n);
    }
  }

  lemma NoOutcome()
    ensures !AnyExceeded([])
  {
  }

  lemma RulePrefix(
    results: seq<Outcome>, candidates: seq<string>, questions: nat, budget: real, cancelledAt: nat -> bool,
    runs: nat -> Behaviour)
    requires 0 < |results| <= |candidates|
    requires AllFollowRule(results, candidates, questions, budget, cancelledAt, runs)
    ensures var n := |results| - 1;
      && AllFollowRule(results[..n], candidates, questions, budget, cancelledAt, runs)
      && FollowsRule(results[..n], results[n], candidates[n], questions, budget, cancelledAt(n), runs(n))
  {
    hide FollowsRule;
  }

  lemma SameTurn(a: seq<Outcome>, b: seq<Outcome>, questions: nat, budget: real, runs: nat -> Behaviour, i: nat)
    requires i < |a| && i < |b| && a[..i] == b[..i] && a[..i + 1] == b[..i + 1]
    ensures StaysInside(a, questions, budget, runs, i) <==> StaysInside(b, questions, budget, runs, i)
  {
    hide TotalCost, Estimate;
  }

  // The last turn, by the rule, with nobody over budget before it.
  lemma LastTurn(
    results: seq<Outcome>, candidate: string, questions: nat, budget: real, cancelled: bool, runs: nat -> Behaviour,
    n: nat)
    requires n == |results| - 1
    requires FollowsRule(results[..n], results[n], candidate, questions, budget, cancelled, runs(n))
    ensures !AnyExceeded(results[..n]) ==>
      (results[n].status != BUDGET_EXCEEDED <==> cancelled || StaysInside(results, questions, budget, runs, n))
  {
    var before := results[..n];
    assert results[..n + 1] == results == before + [results[n]];
    AppendOutcome(before, results[n]);
    assert Estimate(questions) > 0.0;
    hide TotalCost, AnyExceeded, Estimate;
    if MayStart(before, questions, budget, cancelled) {
      OverBudgetMark(candidate, runs(n), TotalCost(before), budget);
    }
  }

  /** A run that ends OK started every candidate, cancelled none, ended within the cap, and left no
      cleanup that failed or was interrupted. */
  lemma OkMeansAllWell(
    course: Course, results: seq<Outcome>, leaks: bool, candidates: seq<string>, questions: nat, budget: real,
    cancelledAt: nat -> bool, runs: nat -> Behaviour, inside: nat -> Cleanup, afterwards: nat -> Cleanup,
    calls: seq<nat>)
    requires |results| <= |candidates| && budget >= 0.0
    requires AllFollowRule(results, candidates, questions, budget, cancelledAt, runs)
    requires |results| < |candidates| ==> results != [] && results[|results| - 1].status == CANCELLED
    requires calls == Positions(candidates, |candidates|, Lost(candidates, LeftAt(course, results, leaks)))
    requires !course.AtGate? && FinalStatus(course, results, leaks, candidates, inside, afterwards, calls) == OK
    ensures |results| == |candidates| && !AnyCancelled(results) && !leaks && TotalCost(results) <= budget
    ensures forall i: nat :: i < |results| ==> MayStart(results[..i], questions, budget, cancelledAt(i))
    ensures forall i: nat :: i < |candidates| && FirstOfItsId(candidates, i) ==>
      i in calls && inside(i) in {NoReceipt, Receipt(true)}
  {
    NobodyExceededIff(results, candidates, questions, budget, cancelledAt, runs);
    AllStarted(results, candidates, questions, budget, cancelledAt, runs);
    PositionsExact(candidates, |candidates|, Lost(candidates, LeftAt(course, results, leaks)));
    hide AllFollowRule, TotalCost, AnyExceeded, MayStart, StaysInside, Positions;
  }

  // Without a CANCELLED and a BUDGET_EXCEEDED everybody with a result was started.
  lemma AllStarted(
    results: seq<Outcome>, candidates: seq<string>, questions: nat, budget: real, cancelledAt: nat -> bool,
    runs: nat -> Behaviour)
    requires |results| <= |candidates| && budget >= 0.0
    requires AllFollowRule(results, candidates, questions, budget, cancelledAt, runs)
    ensures !AnyCancelled(results) && !AnyExceeded(results) ==>
      && TotalCost(results) <= budget
      && forall i: nat :: i < |results| ==> MayStart(results[..i], questions, budget, cancelledAt(i))
  {
    if !AnyCancelled(results) && !AnyExceeded(results) {
      NobodyExceededIff(results, candidates, questions, budget, cancelledAt, runs);
      forall i: nat | i < |results| ensures MayStart(results[..i], questions, budget, cancelledAt(i)) {
        RuleAt(results, candidates, questions, budget, cancelledAt, runs, i);
      }
      hide AllFollowRule;
      if results != [] {
        var n := |results| - 1;
        assert MayStart(results[..n], questions, budget, cancelledAt(n));
        assert results[..n + 1] == results && StaysInside(results, questions, budget, runs, n);
      }
    }
  }

  /** With different ids and no interrupt between a mark and its call, every candidate is cleaned up
      exactly once, in order, wherever the workflow's own cleanup was left. */
  lemma {:induction false} DistinctIdsAllCleaned(candidates: seq<string>, upTo: nat)
    requires upTo <= |candidates|
    requires forall i, j :: 0 <= i < j < |candidates| ==> candidates[i] != candidates[j]
    ensures |Positions(candidates, upTo, None)| == upTo
    ensures forall i :: 0 <= i < upTo ==> Positions(candidates, upTo, None)[i] == i
  {
    if upTo > 0 { DistinctIdsAllCleaned(candidates, upTo - 1); }
  }
}
