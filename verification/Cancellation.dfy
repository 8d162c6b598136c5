/** `RunCancellation`: a signal that is raised once and runs the callbacks registered on it. */
module Cancellation {

  /** One call of `add_callback`, numbered in the order the calls took the lock. */
  type Registration = nat

  /** The object's fields as one value. Keys of `callbacks` are callback ids. */
  datatype Token = Token(isSet: bool, callbacks: map<int, Registration>, nextId: int)

  const FRESH_TOKEN := Token(false, map[], 0)

  // The dictionary's values in insertion order. Ids only grow, so that is id order.
  function InIdOrder(callbacks: map<int, Registration>, below: int): (r: seq<Registration>)
    decreases below
  {
    if below <= 0 then []
    else if below - 1 in callbacks then InIdOrder(callbacks, below - 1) + [callbacks[below - 1]]
    else InIdOrder(callbacks, below - 1)
  }

  // ----- the three critical sections -----

  function CancelSection(t: Token): (r: (Token, seq<Registration>)) {
    if t.isSet then (t, []) else (t.(isSet := true), InIdOrder(t.callbacks, t.nextId))
  }

  /** A negative id tells the caller to run the callback itself, at once. */
  function AddSection(t: Token, callback: Registration): (r: (Token, int)) {
    if t.isSet then (t, -1)
    else (t.(callbacks := t.callbacks[t.nextId := callback], nextId := t.nextId + 1), t.nextId)
  }

  function RemoveSection(t: Token, id: int): (r: Token) {
    if id < 0 then t else t.(callbacks := t.callbacks - {id})
  }

  class RunCancellation {
    var event: bool
    var callbacks: map<int, Registration>
    var nextCallbackId: int

    function Fields(): (t: Token)
      reads this
    {
      Token(event, callbacks, nextCallbackId)
    }

    constructor ()
      ensures Fields() == FRESH_TOKEN
    {
      event, callbacks, nextCallbackId := false, map[], 0;
    }

    method CancelLocked() returns (snapshot: seq<Registration>)
      modifies this
      ensures (Fields(), snapshot) == CancelSection(old(Fields()))
      ensures event && callbacks == old(callbacks) && nextCallbackId == old(nextCallbackId)
      ensures old(event) ==> snapshot == []
    {
      if event { return []; }
      event := true;
      snapshot := InIdOrder(callbacks, nextCallbackId);
    }

    method AddLocked(callback: Registration) returns (id: int)
      modifies this
      ensures (Fields(), id) == AddSection(old(Fields()), callback)
      ensures old(event) ==> id < 0 && Fields() == old(Fields())
      ensures !old(event) ==> id == old(nextCallbackId) && callbacks == old(callbacks)[id := callback]
    {
      if event {
        id := -1;
      } else {
        id := nextCallbackId;
        nextCallbackId := nextCallbackId + 1;
        callbacks := callbacks[id := callback];
      }
    }

    method Remove(id: int)
      modifies this
      ensures Fields() == RemoveSection(old(Fields()), id)
      ensures event == old(event) && callbacks == if id < 0 then old(callbacks) else old(callbacks) - {id}
    {
      if id < 0 { return; }
      callbacks := callbacks - {id};
    }
  }

  /** The loop of `cancel` after the lock: a callback that raises is suppressed, so all of them run. */
  method InvokeAll(snapshot: seq<Registration>, raises: set<Registration>)
    returns (log: seq<Registration>, suppressed: seq<Registration>)
    ensures log == snapshot
    ensures forall r :: r in suppressed <==> r in snapshot && r in raises
  {
    log, suppressed := [], [];
    for i := 0 to |snapshot|
      invariant log == snapshot[..i]
      invariant forall r :: r in suppressed <==> r in snapshot[..i] && r in raises
    {
      log := log + [snapshot[i]];
      if snapshot[i] in raises { suppressed := suppressed + [snapshot[i]]; }
    }
  }

  // ----- every schedule -----

  /** The token together with what its callers are in the middle of.
      `ids[r]` is the id registration `r` was given; `toInvoke` is the rest of the canceller's
      snapshot; `immediate` holds registrations whose `add_callback` has left the lock and still has
      to run its callback; `log` is every invocation so far. `withdrawn` records the registrations
      whose remover ran while the signal was not yet raised. */
  datatype System = System(
    token: Token,
    ids: seq<int>,
    toInvoke: seq<Registration>,
    immediate: set<Registration>,
    log: seq<Registration>,
    withdrawn: set<Registration>)

  const INITIAL := System(FRESH_TOKEN, [], [], {}, [], {})

  datatype Step =
    | Add
    | RunImmediate(registration: Registration, raised: bool)
    | RemoveStep(registration: Registration)
    | Cancel
    | RunNext(raised: bool)

  // A step that is not enabled leaves the system unchanged.
  function Next(s: System, step: Step): (s': System) {
    match step
    case Add =>
      var (token, id) := AddSection(s.token, |s.ids|);
      s.(token := token, ids := s.ids + [id],
         immediate := if id < 0 then s.immediate + {|s.ids|} else s.immediate)
    case RunImmediate(r, _) =>
      if r in s.immediate then s.(immediate := s.immediate - {r}, log := s.log + [r]) else s
    case RemoveStep(r) =>
      if r < |s.ids| then
        s.(token := RemoveSection(s.token, s.ids[r]),
           withdrawn := if s.token.isSet then s.withdrawn else s.withdrawn + {r})
      else s
    case Cancel =>
      var (token, snapshot) := CancelSection(s.token);
      s.(token := token, toInvoke := s.toInvoke + snapshot)
    case RunNext(_) =>
      if s.toInvoke == [] then s
      else s.(toInvoke := s.toInvoke[1..], log := s.log + [s.toInvoke[0]])
  }

  function Run(s: System, steps: seq<Step>): (s': System)
    decreases |steps|
  {
    if steps == [] then s else Run(Next(s, steps[0]), steps[1..])
  }

  function Owed(s: System, r: Registration): (n: nat) {
    multiset(s.toInvoke)[r] + if r in s.immediate then 1 else 0
  }

  /** Before the signal the registry holds exactly the live registrations; after it, every
      registration has been invoked or is owed exactly one invocation, unless it was withdrawn. */
  ghost predicate Invariant(s: System) {
    && (forall r :: r in s.withdrawn ==> r < |s.ids|)
    && (!s.token.isSet ==>
          && s.token.nextId == |s.ids|
          && s.toInvoke == [] && s.immediate == {} && s.log == []
          && (forall r :: 0 <= r < |s.ids| ==> s.ids[r] == r)
          && (forall i :: i in s.token.callbacks <==> 0 <= i < |s.ids| && i !in s.withdrawn)
          && (forall i :: i in s.token.callbacks ==> s.token.callbacks[i] == i))
    && (s.token.isSet ==>
          forall r: Registration ::
            multiset(s.log)[r] + Owed(s, r) == if r < |s.ids| && r !in s.withdrawn then 1 else 0)
  }

  lemma {:induction false} SnapshotOrder(callbacks: map<int, Registration>, below: nat)
    requires forall i :: i in callbacks ==> callbacks[i] == i
    ensures forall r: Registration :: r in InIdOrder(callbacks, below) <==> r < below && r in callbacks
    ensures forall i, j :: 0 <= i < j < |InIdOrder(callbacks, below)| ==>
      InIdOrder(callbacks, below)[i] < InIdOrder(callbacks, below)[j]
  {
    if below > 0 {
      SnapshotOrder(callbacks, below - 1);
      var shorter := InIdOrder(callbacks, below - 1);
      assert forall i :: 0 <= i < |shorter| ==> shorter[i] in shorter;
    }
  }

  lemma {:induction false} SnapshotCount(callbacks: map<int, Registration>, below: nat, r: Registration)
    requires forall i :: i in callbacks ==> callbacks[i] == i
    ensures multiset(InIdOrder(callbacks, below))[r] == if r < below && r in callbacks then 1 else 0
  {
    if below > 0 { SnapshotCount(callbacks, below - 1, r); }
  }

  /** A snapshot holds the registered callbacks, once each, in id order. */
  lemma SnapshotContents(callbacks: map<int, Registration>, below: nat)
    requires forall i :: i in callbacks ==> callbacks[i] == i
    ensures forall r: Registration ::
      multiset(InIdOrder(callbacks, below))[r] == if r < below && r in callbacks then 1 else 0
    ensures forall r: Registration :: r in InIdOrder(callbacks, below) <==> r < below && r in callbacks
    ensures forall i, j :: 0 <= i < j < |InIdOrder(callbacks, below)| ==>
      InIdOrder(callbacks, below)[i] < InIdOrder(callbacks, below)[j]
  {
    hide *;
    SnapshotOrder(callbacks, below);
    forall r: Registration
      ensures multiset(InIdOrder(callbacks, below))[r] == if r < below && r in callbacks then 1 else 0 {
      SnapshotCount(callbacks, below, r);
    }
  }

  // What a step owes or has run, registration by registration, once the signal is up.
  lemma RaisedStepConserves(s: System, step: Step, r: Registration)
    requires s.token.isSet && |s.ids| !in s.immediate
    ensures var s' := Next(s, step);
      && s'.token.isSet && s'.withdrawn == s.withdrawn
      && multiset(s'.log)[r] + Owed(s', r) ==
           multiset(s.log)[r] + Owed(s, r) + if step.Add? && r == |s.ids| then 1 else 0
  {
    var s' := Next(s, step);
    match step {
      case Add =>
      case RunImmediate(q, _) =>
        assert q in s.immediate ==> multiset(s'.log) == multiset(s.log) + multiset{q};
      case RemoveStep(_) =>
      case Cancel =>
        assert s'.toInvoke == s.toInvoke;
      case RunNext(_) =>
        if s.toInvoke != [] {
          assert s.toInvoke == [s.toInvoke[0]] + s.toInvoke[1..];
          assert multiset(s.toInvoke) == multiset{s.toInvoke[0]} + multiset(s.toInvoke[1..]);
          assert multiset(s'.log) == multiset(s.log) + multiset{s.toInvoke[0]};
        }
    }
  }

  lemma CancelEstablishes(s: System)
    requires Invariant(s) && !s.token.isSet
    ensures Invariant(Next(s, Cancel))
  {
    SnapshotContents(s.token.callbacks, s.token.nextId);
    assert Next(s, Cancel).toInvoke == InIdOrder(s.token.callbacks, s.token.nextId);
  }

  lemma StepKeepsInvariant(s: System, step: Step)
    requires Invariant(s)
    ensures Invariant(Next(s, step))
  {
    if s.token.isSet {
      assert Owed(s, |s.ids|) == 0;
      forall r: Registration
        ensures multiset(Next(s, step).log)[r] + Owed(Next(s, step), r) ==
          if r < |Next(s, step).ids| && r !in Next(s, step).withdrawn then 1 else 0
      {
        RaisedStepConserves(s, step, r);
      }
      RaisedStepConserves(s, step, 0);
    } else if step.Cancel? {
      CancelEstablishes(s);
    }
  }

  lemma {:induction false} RunKeepsInvariant(s: System, steps: seq<Step>)
    requires Invariant(s)
    ensures Invariant(Run(s, steps))
    decreases |steps|
  {
    if steps != [] {
      StepKeepsInvariant(s, steps[0]);
      RunKeepsInvariant(Next(s, steps[0]), steps[1..]);
    }
  }

  /** Under every schedule a registered callback runs at most once. */
  lemma InvokedAtMostOnce(steps: seq<Step>, r: Registration)
    ensures multiset(Run(INITIAL, steps).log)[r] <= 1
  {
    RunKeepsInvariant(INITIAL, steps);
  }

  /** Once a raised signal has nothing left to run, a callback has run exactly once if it was
      registered and not withdrawn in time, and never otherwise, whichever callbacks raised. */
  lemma SettledMeansExactlyOnce(steps: seq<Step>, r: Registration)
    requires Run(INITIAL, steps).token.isSet
    requires Run(INITIAL, steps).toInvoke == [] && Run(INITIAL, steps).immediate == {}
    ensures multiset(Run(INITIAL, steps).log)[r] ==
      if r < |Run(INITIAL, steps).ids| && r !in Run(INITIAL, steps).withdrawn then 1 else 0
  {
    RunKeepsInvariant(INITIAL, steps);
  }

  /** Nothing runs before the signal is raised, and the canceller then runs the live
      registrations in the order they were made. */
  lemma CancelRunsLiveRegistrationsInOrder(steps: seq<Step>)
    requires !Run(INITIAL, steps).token.isSet
    ensures Run(INITIAL, steps).log == []
    ensures var s' := Next(Run(INITIAL, steps), Cancel);
      && s'.token.isSet
      && (forall r: Registration :: r in s'.toInvoke <==> r < |s'.ids| && r !in s'.withdrawn)
      && (forall i, j :: 0 <= i < j < |s'.toInvoke| ==> s'.toInvoke[i] < s'.toInvoke[j])
  {
    hide Run, InIdOrder;
    RunKeepsInvariant(INITIAL, steps);
    var s := Run(INITIAL, steps);
    SnapshotContents(s.token.callbacks, s.token.nextId);
    var s' := Next(s, Cancel);
    assert s'.toInvoke == InIdOrder(s.token.callbacks, s.token.nextId);
  }

  /** A raised signal stays raised, and later removals or repeated cancels neither add nor take
      away any invocation that is still owed. */
  lemma RaisedSignalIsFinal(steps: seq<Step>, step: Step)
    requires Run(INITIAL, steps).token.isSet
    ensures var s, s' := Run(INITIAL, steps), Next(Run(INITIAL, steps), step);
      && s'.token.isSet && s'.withdrawn == s.withdrawn && s.log <= s'.log
      && (step.RemoveStep? || step.Cancel? ==> s'.toInvoke == s.toInvoke && s'.immediate == s.immediate)
      && (forall r: Registration | r < |s.ids| ::
            multiset(s'.log)[r] + Owed(s', r) == multiset(s.log)[r] + Owed(s, r))
  {
    RunKeepsInvariant(INITIAL, steps);
    var s := Run(INITIAL, steps);
    assert Owed(s, |s.ids|) == 0;
    forall r: Registration | r < |s.ids|
      ensures multiset(Next(s, step).log)[r] + Owed(Next(s, step), r) == multiset(s.log)[r] + Owed(s, r)
    {
      RaisedStepConserves(s, step, r);
    }
    RaisedStepConserves(s, step, 0);
  }
}
