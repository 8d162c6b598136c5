/** What holds in every state the UI can reach, and across the host that runs its effects.

    1. Plans. A plan is only ever made by resolving the selection, and every action that changes what a
       plan is about resolves it again or drops the plan. So a plan that is present fits the selection,
       the provider and the connections in every reachable state (`ReachablePlansFit`), and a run starts
       from such a plan only (`RunEffectsAreRunnable`). GBrain's readiness is not part of this: a switch
       to semantic mode and a failed validation keep the plan, and it is said exactly when a plan stands
       beside an unvalidated GBrain (`ExposedExactly`). What does hold is that a plan, and every run,
       carries quick start or a configuration that was validated (`RunsCarryValidated`).

    2. The assertion. Cancelling asserts that a running run has a handle. Starting sets both, settling
       clears both, and resetting clears only the handle; so the assertion holds along all actions that
       do not reset a running run (`AssertionHoldsWithoutReset`), and there is a run of the reducer that
       breaks it (`BrokenAssertionIsReachable`).

    3. Handles. Each is made from the next sequence number, and different numbers give different texts.
       With effects waiting in a queue, submitted in any order, and settling at any time, the registry
       of the host never meets a handle twice (`DuplicateHandleUnreachable`). The invariant is that the
       handles that wait or are registered were all issued, and that those that wait are different from
       each other and from the registered ones (`HostInvariant`). */
module UiProofs {
  import opened Options
  import opened Ordering
  import opened UiState

  // ----- selections -----

  lemma {:induction false} InOrderMembers<T>(all: seq<T>, chosen: set<T>)
    requires Distinct(all)
    ensures forall x :: x in InOrder(all, chosen) <==> x in all && x in chosen
    ensures Distinct(InOrder(all, chosen))
  {
    if all != [] {
      assert forall i :: 0 <= i < |all| - 1 ==> all[1..][i] == all[i + 1];
      InOrderMembers(all[1..], chosen);
    }
  }

  /** Toggling flips the item's membership, keeps every other member, and never repeats one. */
  lemma ToggleFlips<T>(all: seq<T>, selected: seq<T>, item: T)
    requires Distinct(all) && item in all
    requires forall x :: x in selected ==> x in all
    ensures var r := Toggled(all, selected, item);
      Distinct(r) && forall x :: x in r <==> (if x == item then item !in selected else x in selected)
  {
    var values := set x | x in selected;
    InOrderMembers(all, if item in values then values - {item} else values + {item});
  }

  lemma {:induction false} WithoutMembers<T>(selected: seq<T>, item: T)
    requires Distinct(selected)
    ensures forall x :: x in Without(selected, item) <==> x in selected && x != item
    ensures Distinct(Without(selected, item))
  {
    if selected != [] {
      assert forall i :: 0 <= i < |selected| - 1 ==> selected[1..][i] == selected[i + 1];
      WithoutMembers(selected[1..], item);
      assert selected[0] !in selected[1..];
    }
  }

  // ----- plans -----

  /** A plan a run could start from. */
  ghost predicate Runnable(plan: Plan, provider: Provider) {
    && plan.providerMode == ProviderMode(provider)
    && plan.sources != [] && Distinct(plan.sources)
    && |plan.candidates| >= 2 && Distinct(plan.candidates)
    && plan.budgetUsd == 25.0
    && plan.maxQuestions == (if |plan.sources| == 1 then 20 else 30)
  }

  /** A plan on the screen is about what is selected, and everything it needs is ready. */
  ghost predicate PlanFits(s: State) {
    s.plan.Some? ==>
      && Runnable(s.plan.value, s.provider)
      && s.plan.value.sources == s.selectedSources
      && s.plan.value.candidates == s.selectedCandidates
      && s.subscription == READY
      && forall source :: source in s.selectedSources ==> Connected(s.sourceStates, source)
  }

  ghost predicate Invariant(s: State) {
    PlanFits(s) && Distinct(s.selectedSources) && Distinct(s.selectedCandidates)
  }

  lemma ResolvedFits(s: State)
    requires Distinct(s.selectedSources) && Distinct(s.selectedCandidates)
    ensures Invariant(Resolved(s))
  {
  }

  lemma ToggleSourceKeepsInvariant(s: State, source: Source)
    requires Invariant(s)
    ensures Invariant(Resolved(s.(selectedSources := Toggled(ALL_SOURCES, s.selectedSources, source))))
  {
    hide Resolved, PlanFits;
    var values := set x | x in s.selectedSources;
    InOrderMembers(ALL_SOURCES, if source in values then values - {source} else values + {source});
    ResolvedFits(s.(selectedSources := Toggled(ALL_SOURCES, s.selectedSources, source)));
  }

  lemma SkipSourceKeepsInvariant(s: State, source: Source)
    requires Invariant(s)
    ensures Invariant(Resolved(Advance(s.(selectedSources := Without(s.selectedSources, source)))))
  {
    WithoutMembers(s.selectedSources, source);
    ResolvedFits(Advance(s.(selectedSources := Without(s.selectedSources, source))));
  }

  lemma ToggleCandidateKeepsInvariant(s: State, candidate: Candidate)
    requires Invariant(s)
    ensures Invariant(Resolved(s.(selectedCandidates := Toggled(ALL_CANDIDATES, s.selectedCandidates, candidate))))
  {
    hide Resolved, PlanFits;
    var values := set x | x in s.selectedCandidates;
    InOrderMembers(ALL_CANDIDATES, if candidate in values then values - {candidate} else values + {candidate});
    ResolvedFits(s.(selectedCandidates := Toggled(ALL_CANDIDATES, s.selectedCandidates, candidate)));
  }

  lemma ConnectionsLoadedKeepsInvariant(s: State, snapshot: Snapshot)
    requires Invariant(s)
    ensures Invariant(ReduceSelection(s, ConnectionsLoaded(snapshot)).state)
  {
    ResolvedFits(s.(provider := snapshot.provider, subscription := snapshot.subscription,
                    embedding := snapshot.embedding, sourceStates := snapshot.sources));
  }

  lemma SelectionKeepsInvariant(s: State, action: Action)
    requires Invariant(s) && IsSelection(action)
    ensures Invariant(ReduceSelection(s, action).state)
  {
    match action {
      case ToggleSource(source) => ToggleSourceKeepsInvariant(s, source);
      case SkipSource(source) => SkipSourceKeepsInvariant(s, source);
      case ToggleCandidate(candidate) => ToggleCandidateKeepsInvariant(s, candidate);
      case ConnectionsLoaded(snapshot) => ConnectionsLoadedKeepsInvariant(s, snapshot);
      case _ =>
    }
  }

  lemma GBrainValidatedKeepsInvariant(s: State, config: Option<GBrainConfig>, error: string)
    requires Invariant(s)
    ensures Invariant(ReduceGBrain(s, GBrainValidated(config, error)).state)
  {
    if config.Some? {
      ResolvedFits(WithGBrain(s, REVIEW, config.value, GBrainReadiness(true, "Validated")));
    }
  }

  lemma SelectModeKeepsInvariant(s: State, semantic: bool)
    requires Invariant(s)
    ensures Invariant(ReduceGBrain(s, SelectGBrainMode(semantic)).state)
  {
    ResolvedFits(WithGBrain(s, REVIEW, QuickStart, QUICK_START_READY));
  }

  lemma GBrainKeepsInvariant(s: State, action: Action)
    requires Invariant(s) && IsGBrain(action)
    ensures Invariant(ReduceGBrain(s, action).state)
  {
    match action {
      case GBrainValidated(config, error) => GBrainValidatedKeepsInvariant(s, config, error);
      case SelectGBrainMode(semantic) => SelectModeKeepsInvariant(s, semantic);
      case _ =>
    }
  }

  lemma StepKeepsInvariant(s: State, action: Action)
    requires Invariant(s)
    ensures Invariant(After(s, action))
  {
    if IsGBrain(action) { GBrainKeepsInvariant(s, action); }
    if IsSelection(action) { SelectionKeepsInvariant(s, action); }
  }

  lemma {:induction false} RunKeepsInvariant(s: State, actions: seq<Action>)
    requires Invariant(s)
    ensures Invariant(Run(s, actions))
    decreases |actions|
  {
    if actions != [] {
      StepKeepsInvariant(s, actions[0]);
      RunKeepsInvariant(After(s, actions[0]), actions[1..]);
    }
  }

  lemma InitialInvariant(embedding: Embedding)
    ensures Invariant(Initial(embedding))
  {
  }

  /** In every reachable state a plan matches the selection and the provider, with every source
      connected, the subscription ready and two different candidates at least. */
  lemma ReachablePlansFit(embedding: Embedding, actions: seq<Action>)
    ensures PlanFits(Run(Initial(embedding), actions))
  {
    InitialInvariant(embedding);
    RunKeepsInvariant(Initial(embedding), actions);
  }

  lemma RunEffectOf(s: State, action: Action)
    ensures var effects := Effects(s, action);
      forall i :: 0 <= i < |effects| && effects[i].RunExperiment? ==>
        action.StartRun? && s.plan.Some? && effects[i].plan == s.plan.value && effects[i].provider == s.provider
  {
    if action.StartRun? {
    } else if IsRunControl(action) {
      assert forall i :: 0 <= i < |Effects(s, action)| ==> !OwnsHandle(Effects(s, action)[i]);
    }
  }

  /** Every run effect carries such a plan for the effect's own provider, so the worker's
      provider-mismatch error cannot happen; and only `StartRun` emits one. */
  lemma RunEffectsAreRunnable(embedding: Embedding, actions: seq<Action>, action: Action, i: nat)
    requires i < |Effects(Run(Initial(embedding), actions), action)|
    requires Effects(Run(Initial(embedding), actions), action)[i].RunExperiment?
    ensures var s := Run(Initial(embedding), actions);
      var effect := Effects(s, action)[i];
      && action.StartRun? && effect.provider == s.provider
      && Runnable(effect.plan, effect.provider)
      && effect.plan.sources == s.selectedSources && effect.plan.candidates == s.selectedCandidates
  {
    ReachablePlansFit(embedding, actions);
    RunEffectOf(Run(Initial(embedding), actions), action);
  }

  /** A plan made for keyword-only search outlives the switch to semantic mode: it is still there,
      and can be started, although GBrain is no longer validated. */
  lemma SemanticSwitchKeepsPlan(s: State)
    ensures var s' := After(s, SelectGBrainMode(true));
      s'.plan == s.plan && !s'.gbrainReadiness.validated
    ensures s.plan.Some? ==> exists e :: e in Effects(After(s, SelectGBrainMode(true)), StartRun) && e.RunExperiment?
  {
    if s.plan.Some? {
      var e := RunExperiment(s.plan.value, s.provider, RunHandle(s.nextSequence));
      assert e in Effects(After(s, SelectGBrainMode(true)), StartRun);
    }
  }

  // ----- GBrain: readiness, and what a run carries -----

  /** The actions that leave GBrain unvalidated beside whatever plan there is: the switch to semantic mode,
      and a validation that failed. */
  predicate Unvalidates(action: Action) {
    action == SelectGBrainMode(true) || (action.GBrainValidated? && (action.error != "" || action.config.None?))
  }

  /** The actions that replace the plan or the readiness otherwise. */
  predicate Replaces(s: State, action: Action) {
    || action.StartRun?
    || (IsSelection(action) && !action.RefreshConnections?)
    || action == SelectGBrainMode(false)
    || (action.GBrainValidated? && !Unvalidates(action))
    || (action.GoBack? && s.screen == GBRAIN)
  }

  /** There is a plan, and GBrain is not validated. */
  predicate Exposed(s: State) { s.plan.Some? && !s.gbrainReadiness.validated }

  lemma SelectionCovers(s: State, action: Action)
    requires IsSelection(action) && !action.RefreshConnections?
    ensures !Exposed(ReduceSelection(s, action).state)
  {
    hide Resolved, NoHandles, Toggled, Without;
  }

  /** Exactly when one action leads to such a state. */
  lemma ExposedStep(s: State, action: Action)
    ensures Exposed(After(s, action)) <==>
      (Unvalidates(action) && s.plan.Some?) || (Exposed(s) && !Unvalidates(action) && !Replaces(s, action))
  {
    hide Resolved, NoHandles, ReduceSelection, ReduceGBrain, ReduceRun, ReduceSession;
    if IsGBrain(action) {
      GBrainExposes(s, action);
    } else if IsSelection(action) {
      if action.RefreshConnections? { RefreshKeeps(s); } else { SelectionCovers(s, action); }
    } else if IsRunControl(action) {
      RunExposes(s, action);
    } else {
      SessionExposes(s, action);
    }
  }

  lemma GBrainExposes(s: State, action: Action)
    requires IsGBrain(action)
    ensures Exposed(ReduceGBrain(s, action).state) <==>
      (Unvalidates(action) && s.plan.Some?) || (Exposed(s) && !Unvalidates(action) && !Replaces(s, action))
  {
    hide Resolved, NoHandles;
  }

  lemma RefreshKeeps(s: State)
    ensures ReduceSelection(s, RefreshConnections).state == s
  {
    hide Resolved, NoHandles, Toggled, Without;
  }

  lemma RunExposes(s: State, action: Action)
    requires IsRunControl(action)
    ensures ReduceRun(s, action).Reduced? ==>
      (Exposed(ReduceRun(s, action).state) <==> Exposed(s) && !action.StartRun?)
  {
    hide RunHandle, NoHandles, StageStatuses, OutcomeStatuses, Elapsed, SameSetup;
  }

  lemma SessionExposes(s: State, action: Action)
    requires !IsGBrain(action) && !IsSelection(action) && !IsRunControl(action)
    ensures Exposed(ReduceSession(s, action).state) <==> Exposed(s) && !(action.GoBack? && s.screen == GBRAIN)
  {
    hide LoginHandle, NoHandles, SameSetup;
  }

  /** An action leaves the state exposed since then. */
  ghost predicate ExposedSince(s: State, actions: seq<Action>, i: nat)
    requires i < |actions|
  {
    && Unvalidates(actions[i]) && Run(s, actions[..i]).plan.Some?
    && forall j :: i < j < |actions| ==> !Replaces(Run(s, actions[..j]), actions[j])
  }

  /** Over all runs of the reducer: a plan stands beside an unvalidated GBrain exactly when some switch to
      semantic mode or failed validation came while there was a plan, and since then nothing replaced the
      plan or the readiness. */
  lemma {:induction false} ExposedExactly(embedding: Embedding, actions: seq<Action>)
    ensures Exposed(Run(Initial(embedding), actions)) <==>
      exists i: nat :: i < |actions| && ExposedSince(Initial(embedding), actions, i)
    decreases |actions|
  {
    hide *;
    var s := Initial(embedding);
    if actions == [] {
      NothingExposed(embedding);
    } else {
      var n := |actions| - 1;
      var before := actions[..n];
      assert actions == before + [actions[n]];
      ThenAction(s, before, actions[n]);
      ExposedStep(Run(s, before), actions[n]);
      ExposedExactly(embedding, before);
      ExposedMeans(Run(s, before));
      LastExposes(s, actions);
      forall i: nat | i < n
        ensures ExposedSince(s, actions, i) <==>
          ExposedSince(s, before, i) && !Replaces(Run(s, before), actions[n])
      {
        EarlierExposes(s, actions, i);
      }
      ReplacesIs(Run(s, before), actions[n]);
    }
  }

  lemma NothingExposed(embedding: Embedding)
    ensures !Exposed(Run(Initial(embedding), []))
  {
  }

  lemma ExposedMeans(s: State)
    ensures Exposed(s) ==> s.plan.Some?
  {
  }

  lemma ReplacesIs(s: State, action: Action)
    ensures Unvalidates(action) ==> !Replaces(s, action)
  {
  }

  lemma LastExposes(s: State, actions: seq<Action>)
    requires actions != []
    ensures ExposedSince(s, actions, |actions| - 1) <==>
      Unvalidates(actions[|actions| - 1]) && Run(s, actions[..|actions| - 1]).plan.Some?
  {
    hide Unvalidates, Replaces, Run;
  }

  lemma EarlierExposes(s: State, actions: seq<Action>, i: nat)
    requires i < |actions| - 1
    ensures var n := |actions| - 1;
      ExposedSince(s, actions, i) <==>
        ExposedSince(s, actions[..n], i) && !Replaces(Run(s, actions[..n]), actions[n])
  {
    hide Unvalidates, Replaces, Run;
    var n := |actions| - 1;
    assert forall j :: 0 <= j <= n ==> actions[..n][..j] == actions[..j];
  }

  /** Quick start, or a configuration that one of the actions brought in validated. */
  predicate Validated(actions: seq<Action>, config: GBrainConfig) {
    config == QuickStart || GBrainValidated(Some(config), "") in actions
  }

  /** Where the configurations of the next state come from. */
  lemma StepCarries(s: State, action: Action)
    ensures var s' := After(s, action);
      && (s'.gbrain in {QuickStart, s.gbrain} || action == GBrainValidated(Some(s'.gbrain), ""))
      && (s'.plan.Some? ==> s'.plan == s.plan || s'.plan.value.gbrain == s'.gbrain)
  {
    hide Toggled, InOrder, Without, RunHandle, LoginHandle, NoHandles;
    if IsGBrain(action) {
      GBrainCarries(s, action);
    } else if IsSelection(action) {
      SelectionCarries(s, action);
    } else {
      OtherCarries(s, action);
    }
  }

  lemma GBrainCarries(s: State, action: Action)
    requires IsGBrain(action)
    ensures var s' := ReduceGBrain(s, action).state;
      && (s'.gbrain in {QuickStart, s.gbrain} || action == GBrainValidated(Some(s'.gbrain), ""))
      && (s'.plan.Some? ==> s'.plan == s.plan || s'.plan.value.gbrain == s'.gbrain)
  {
    hide Resolved, NoHandles, Toggled, Without;
  }

  lemma SelectionCarries(s: State, action: Action)
    requires IsSelection(action)
    ensures var s' := ReduceSelection(s, action).state;
      s'.gbrain == s.gbrain && (s'.plan.Some? ==> s'.plan == s.plan || s'.plan.value.gbrain == s'.gbrain)
  {
    hide Resolved, NoHandles, Toggled, Without;
  }

  lemma OtherCarries(s: State, action: Action)
    requires !IsGBrain(action) && !IsSelection(action)
    ensures var s' := After(s, action);
      s'.gbrain in {QuickStart, s.gbrain} && (s'.plan.Some? ==> s'.plan == s.plan)
  {
    hide RunHandle, LoginHandle, NoHandles, StageStatuses, OutcomeStatuses, Elapsed;
  }

  /** In every reachable state the configuration, and that of a plan, is quick start or was brought in by a
      validation that succeeded. */
  lemma {:induction false} PlansCarryValidated(embedding: Embedding, actions: seq<Action>)
    ensures var s := Run(Initial(embedding), actions);
      Validated(actions, s.gbrain) && (s.plan.Some? ==> Validated(actions, s.plan.value.gbrain))
    decreases |actions|
  {
    if actions == [] {
    } else {
      var n := |actions| - 1;
      var before := actions[..n];
      assert actions == before + [actions[n]];
      ThenAction(Initial(embedding), before, actions[n]);
      PlansCarryValidated(embedding, before);
      StepCarries(Run(Initial(embedding), before), actions[n]);
      hide Run, After, Initial;
    }
  }

  /** So does every run that is started, whatever the readiness says at that moment. */
  lemma RunsCarryValidated(embedding: Embedding, actions: seq<Action>, action: Action, i: nat)
    requires i < |Effects(Run(Initial(embedding), actions), action)|
    requires Effects(Run(Initial(embedding), actions), action)[i].RunExperiment?
    ensures Validated(actions, Effects(Run(Initial(embedding), actions), action)[i].plan.gbrain)
  {
    hide *;
    PlansCarryValidated(embedding, actions);
    RunEffectOf(Run(Initial(embedding), actions), action);
  }

  // ----- the reducer's assertion -----

  /** `ResetRun` is never taken while a run is going on. */
  ghost predicate NoResetWhileRunning(s: State, actions: seq<Action>)
    decreases |actions|
  {
    actions == [] || (!(actions[0].ResetRun? && s.running) && NoResetWhileRunning(After(s, actions[0]), actions[1..]))
  }

  lemma {:induction false} RunningHasHandle(s: State, actions: seq<Action>)
    requires NoResetWhileRunning(s, actions) && (s.running ==> s.activeRun.Some?)
    ensures var s' := Run(s, actions); s'.running ==> s'.activeRun.Some?
    decreases |actions|
  {
    if actions != [] {
      StepHasHandle(s, actions[0]);
      RunningHasHandle(After(s, actions[0]), actions[1..]);
    }
  }

  lemma StepHasHandle(s: State, action: Action)
    requires s.running ==> s.activeRun.Some?
    requires !(action.ResetRun? && s.running)
    ensures After(s, action).running ==> After(s, action).activeRun.Some?
  {
  }

  /** Along actions that never reset a running run the reducer's assertion always holds. */
  lemma AssertionHoldsWithoutReset(embedding: Embedding, actions: seq<Action>, action: Action)
    requires NoResetWhileRunning(Initial(embedding), actions)
    ensures Reduce(Run(Initial(embedding), actions), action).Reduced?
  {
    RunningHasHandle(Initial(embedding), actions);
  }

  /** Resetting and then cancelling breaks it exactly when a run was going on and not yet cancelling:
      `ResetRun` drops the handle but not the running flag. */
  lemma ResetThenCancelBreaks(s: State)
    ensures Reduce(After(s, ResetRun), CancelRun).AssertionFailed? <==> s.running && !s.cancelling
  {
  }

  // ----- both happen -----

  function AllConnected(embedding: Embedding): (snapshot: Snapshot) {
    Snapshot(READY, embedding, map[SLACK := CONNECTED, NOTION := CONNECTED], CODEX)
  }

  lemma OneAction(s: State, action: Action)
    ensures Run(s, [action]) == After(s, action)
  {
    hide After;
    assert Run(After(s, action), [action][1..]) == After(s, action);
  }

  lemma {:induction false} ThenAction(s: State, actions: seq<Action>, action: Action)
    ensures Run(s, actions + [action]) == After(Run(s, actions), action)
    decreases |actions|
  {
    hide After;
    if actions == [] {
      assert actions + [action] == [action];
      OneAction(s, action);
    } else {
      assert (actions + [action])[1..] == actions[1..] + [action];
      ThenAction(After(s, actions[0]), actions[1..], action);
    }
  }

  lemma ConnectedHasPlan(embedding: Embedding)
    ensures var s := After(Initial(embedding), ConnectionsLoaded(AllConnected(embedding)));
      s.plan.Some? && !s.running && s.provider == CODEX
  {
  }

  lemma ConnectedPlanIsQuick(embedding: Embedding)
    ensures var s := After(Initial(embedding), ConnectionsLoaded(AllConnected(embedding)));
      s.plan.Some? && s.plan.value.gbrain == QuickStart
  {
  }

  /** One snapshot with everything connected reaches a plan; switched to semantic mode it is still there
      and starts a run. The readiness is then unvalidated, but the run carries the plan's own quick-start
      configuration. */
  lemma UnvalidatedRunIsReachable(embedding: Embedding)
    ensures var s := Run(Initial(embedding), [ConnectionsLoaded(AllConnected(embedding)), SelectGBrainMode(true)]);
      && Exposed(s)
      && exists e :: e in Effects(s, StartRun) && e.RunExperiment? && e.plan.gbrain == QuickStart
  {
    hide *;
    ConnectedPlanIsQuick(embedding);
    var loaded := ConnectionsLoaded(AllConnected(embedding));
    OneAction(Initial(embedding), loaded);
    ThenAction(Initial(embedding), [loaded], SelectGBrainMode(true));
    assert [loaded] + [SelectGBrainMode(true)] == [loaded, SelectGBrainMode(true)];
    var s := After(Initial(embedding), loaded);
    ExposedStep(s, SelectGBrainMode(true));
    UnvalidatesIs(SelectGBrainMode(true));
    SemanticSwitchKeepsPlan(s);
    StartEmits(After(s, SelectGBrainMode(true)));
  }

  lemma UnvalidatesIs(action: Action)
    ensures action == SelectGBrainMode(true) ==> Unvalidates(action)
  {
  }

  lemma StartEmits(s: State)
    requires s.plan.Some?
    ensures exists e :: e in Effects(s, StartRun) && e.RunExperiment? && e.plan == s.plan.value
  {
    var e := RunExperiment(s.plan.value, s.provider, RunHandle(s.nextSequence));
    assert e in Effects(s, StartRun);
  }

  lemma StartGoesOn(s: State)
    requires s.plan.Some?
    ensures After(s, StartRun).running && !After(s, StartRun).cancelling
  {
  }

  /** From there a started run, reset and then cancelled, breaks the reducer's assertion. */
  lemma BrokenAssertionIsReachable(embedding: Embedding)
    ensures var s := Run(Initial(embedding), [ConnectionsLoaded(AllConnected(embedding)), StartRun, ResetRun]);
      Reduce(s, CancelRun).AssertionFailed?
  {
    hide *;
    ConnectedHasPlan(embedding);
    var loaded := ConnectionsLoaded(AllConnected(embedding));
    OneAction(Initial(embedding), loaded);
    ThenAction(Initial(embedding), [loaded], StartRun);
    ThenAction(Initial(embedding), [loaded] + [StartRun], ResetRun);
    assert [loaded] + [StartRun] + [ResetRun] == [loaded, StartRun, ResetRun];
    StartGoesOn(After(Initial(embedding), loaded));
    ResetThenCancelBreaks(After(After(Initial(embedding), loaded), StartRun));
  }

  // ----- handles and the effect registry -----

  /** The registry's entries: the registered effects that have not settled. */
  datatype Registry = Registry(runs: set<string>, logins: set<string>)

  /** Registering; false for the duplicate-handle error, which changes nothing. */
  function WithRun(r: Registry, handle: string): (next: (Registry, bool)) {
    if handle in r.runs then (r, false) else (r.(runs := r.runs + {handle}), true)
  }

  function WithLogin(r: Registry, handle: string): (next: (Registry, bool)) {
    if handle in r.logins then (r, false) else (r.(logins := r.logins + {handle}), true)
  }

  function WithoutRun(r: Registry, handle: string): (next: (Registry, bool)) {
    (r.(runs := r.runs - {handle}), handle in r.runs)
  }

  function WithoutLogin(r: Registry, handle: string): (next: (Registry, bool)) {
    (r.(logins := r.logins - {handle}), handle in r.logins)
  }

  /** The host-owned registry. */
  class EffectRegistry {
    var runs: set<string>
    var logins: set<string>

    function Entries(): (r: Registry)
      reads this
    {
      Registry(runs, logins)
    }

    constructor ()
      ensures Entries() == Registry({}, {})
    {
      runs, logins := {}, {};
    }

    method RegisterRun(handle: string) returns (ok: bool)
      modifies this`runs
      ensures (Entries(), ok) == WithRun(old(Entries()), handle)
      ensures ok == (handle !in old(runs)) && runs == old(runs) + {handle}
    {
      if handle in runs { return false; }
      runs := runs + {handle};
      ok := true;
    }

    method SettleRun(handle: string) returns (found: bool)
      modifies this`runs
      ensures (Entries(), found) == WithoutRun(old(Entries()), handle)
      ensures found == (handle in old(runs)) && runs == old(runs) - {handle}
    {
      found := handle in runs;
      runs := runs - {handle};
    }

    method RegisterLogin(handle: string) returns (ok: bool)
      modifies this`logins
      ensures (Entries(), ok) == WithLogin(old(Entries()), handle)
      ensures ok == (handle !in old(logins)) && logins == old(logins) + {handle}
    {
      if handle in logins { return false; }
      logins := logins + {handle};
      ok := true;
    }

    method SettleLogin(handle: string) returns (found: bool)
      modifies this`logins
      ensures (Entries(), found) == WithoutLogin(old(Entries()), handle)
      ensures found == (handle in old(logins)) && logins == old(logins) - {handle}
    {
      found := handle in logins;
      logins := logins - {handle};
    }
  }

  /** The UI with its host: effects wait in `queue` until the host takes them, in any order. */
  datatype Host = Host(ui: State, queue: seq<Effect>, registry: Registry)

  datatype HostStep =
    | Act(action: Action)
    | Submit(k: nat)
    | SettleRun(handle: string)
    | SettleLogin(handle: string)

  /** What taking an effect does to the registry, and whether that raises. */
  function Registered(r: Registry, e: Effect): (next: (Registry, bool)) {
    match e
    case RunExperiment(_, _, handle) => WithRun(r, handle)
    case InteractiveLogin(_, handle) => WithLogin(r, handle)
    case _ => (r, true)
  }

  function NextHost(h: Host, step: HostStep): (h': Host) {
    match step
    case Act(action) => h.(ui := After(h.ui, action), queue := h.queue + Effects(h.ui, action))
    case Submit(k) =>
      if k >= |h.queue| then h
      else h.(queue := h.queue[..k] + h.queue[k + 1..], registry := Registered(h.registry, h.queue[k]).0)
    case SettleRun(handle) => h.(registry := WithoutRun(h.registry, handle).0)
    case SettleLogin(handle) => h.(registry := WithoutLogin(h.registry, handle).0)
  }

  function RunHost(h: Host, steps: seq<HostStep>): (h': Host)
    decreases |steps|
  {
    if steps == [] then h else RunHost(NextHost(h, steps[0]), steps[1..])
  }

  /** Registering the effect would raise the duplicate-handle error. */
  predicate Duplicate(h: Host, step: HostStep) {
    step.Submit? && step.k < |h.queue| && !Registered(h.registry, h.queue[step.k]).1
  }

  function HandleOf(e: Effect): string
    requires OwnsHandle(e)
  {
    e.handle
  }

  /** The text was issued with a sequence number below `next`. */
  ghost predicate Issued(handle: string, next: nat) {
    exists n: nat :: n < next && (handle == RunHandle(n) || handle == LoginHandle(n))
  }

  function Handles(r: Registry): (handles: set<string>) { r.runs + r.logins }

  ghost predicate DistinctHandles(queue: seq<Effect>) {
    forall i, j :: 0 <= i < j < |queue| && OwnsHandle(queue[i]) && OwnsHandle(queue[j]) ==>
      HandleOf(queue[i]) != HandleOf(queue[j])
  }

  ghost predicate Unregistered(queue: seq<Effect>, handles: set<string>) {
    forall i :: 0 <= i < |queue| && OwnsHandle(queue[i]) ==> HandleOf(queue[i]) !in handles
  }

  ghost predicate AllIssued(queue: seq<Effect>, handles: set<string>, next: nat) {
    && (forall i :: 0 <= i < |queue| && OwnsHandle(queue[i]) ==> Issued(HandleOf(queue[i]), next))
    && (forall x :: x in handles ==> Issued(x, next))
  }

  ghost predicate HostInvariant(h: Host) {
    && DistinctHandles(h.queue)
    && Unregistered(h.queue, Handles(h.registry))
    && AllIssued(h.queue, Handles(h.registry), h.ui.nextSequence)
  }

  lemma NextHandlesAreNew(next: nat)
    ensures !Issued(RunHandle(next), next) && !Issued(LoginHandle(next), next)
  {
    forall n: nat | n < next
      ensures RunHandle(next) != RunHandle(n) && LoginHandle(next) != LoginHandle(n)
      ensures RunHandle(next) != LoginHandle(n) && LoginHandle(next) != RunHandle(n)
    {
      HandlesInjective(next, n);
      assert RunHandle(next)[0] == 'r' && LoginHandle(n)[0] == 'l';
      assert RunHandle(n)[0] == 'r' && LoginHandle(next)[0] == 'l';
    }
  }

  /** An action issues at most one handle, and one that was never issued before. */
  lemma EffectsIssueFreshHandles(s: State, action: Action)
    ensures var effects, next := Effects(s, action), After(s, action).nextSequence;
      && s.nextSequence <= next && |effects| <= 1
      && (forall i :: 0 <= i < |effects| && OwnsHandle(effects[i]) ==>
            !Issued(HandleOf(effects[i]), s.nextSequence) && Issued(HandleOf(effects[i]), next))
  {
    NextHandlesAreNew(s.nextSequence);
    if action.StartRun? && s.plan.Some? {
      assert Effects(s, action)[0].handle == RunHandle(s.nextSequence);
    } else if action.RequestLogin? {
      assert Effects(s, action)[0].handle == LoginHandle(s.nextSequence);
    }
    SequenceGrows(s, action);
  }

  lemma SequenceGrows(s: State, action: Action)
    ensures After(s, action).nextSequence ==
      s.nextSequence + if action.RequestLogin? || (action.StartRun? && s.plan.Some?) then 1 else 0
  {
    hide ReduceGBrain, ReduceSelection, ReduceLogin, ReduceRun, Resolved, RunHandle, LoginHandle, NoHandles;
    RunSequence(s, action);
  }

  lemma RunSequence(s: State, action: Action)
    ensures ReduceRun(s, action).Reduced? ==>
      ReduceRun(s, action).state.nextSequence == s.nextSequence + if action.StartRun? && s.plan.Some? then 1 else 0
  {
    hide RunHandle, NoHandles, StageStatuses, OutcomeStatuses, Elapsed, SameSetup;
  }

  lemma IssuedGrows(handle: string, a: nat, b: nat)
    requires a <= b && Issued(handle, a)
    ensures Issued(handle, b)
  {
  }

  lemma TakeFromQueue(queue: seq<Effect>, k: nat, handles: set<string>, next: nat)
    requires k < |queue|
    requires DistinctHandles(queue) && Unregistered(queue, handles) && AllIssued(queue, handles, next)
    ensures var rest := queue[..k] + queue[k + 1..];
      var handles' := if OwnsHandle(queue[k]) then handles + {HandleOf(queue[k])} else handles;
      DistinctHandles(rest) && Unregistered(rest, handles') && AllIssued(rest, handles', next)
  {
    var rest := queue[..k] + queue[k + 1..];
    assert forall i :: 0 <= i < |rest| ==> rest[i] == queue[if i < k then i else i + 1];
  }

  lemma SubmitKeepsHostInvariant(h: Host, k: nat)
    requires HostInvariant(h) && k < |h.queue|
    ensures HostInvariant(NextHost(h, Submit(k)))
  {
    TakeFromQueue(h.queue, k, Handles(h.registry), h.ui.nextSequence);
    var h' := NextHost(h, Submit(k));
    assert Handles(h'.registry) ==
      if OwnsHandle(h.queue[k]) then Handles(h.registry) + {HandleOf(h.queue[k])} else Handles(h.registry);
  }

  lemma HostStepKeepsInvariant(h: Host, step: HostStep)
    requires HostInvariant(h)
    ensures HostInvariant(NextHost(h, step))
  {
    match step {
      case Act(action) => ActKeepsHostInvariant(h, action);
      case Submit(k) => if k < |h.queue| { SubmitKeepsHostInvariant(h, k); }
      case _ =>
    }
  }

  lemma ActKeepsHostInvariant(h: Host, action: Action)
    requires HostInvariant(h)
    ensures HostInvariant(NextHost(h, Act(action)))
  {
    EffectsIssueFreshHandles(h.ui, action);
    var next := After(h.ui, action).nextSequence;
    forall x | Issued(x, h.ui.nextSequence) ensures Issued(x, next) { IssuedGrows(x, h.ui.nextSequence, next); }
  }

  lemma {:induction false} HostRunKeepsInvariant(h: Host, steps: seq<HostStep>)
    requires HostInvariant(h)
    ensures HostInvariant(RunHost(h, steps))
    decreases |steps|
  {
    if steps != [] {
      HostStepKeepsInvariant(h, steps[0]);
      HostRunKeepsInvariant(NextHost(h, steps[0]), steps[1..]);
    }
  }

  /** However actions, submissions and settlements interleave, the registry never sees a handle twice. */
  lemma DuplicateHandleUnreachable(embedding: Embedding, steps: seq<HostStep>, step: HostStep)
    ensures !Duplicate(RunHost(Host(Initial(embedding), [], Registry({}, {})), steps), step)
  {
    HostRunKeepsInvariant(Host(Initial(embedding), [], Registry({}, {})), steps);
  }
}
