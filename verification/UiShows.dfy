/** What the UI shows, and what it asks of its host.

    An action asks for one effect at most, and for each exactly when it should (`EffectsExactly`); what a cancel
    stops is the run that was started last (`CancelStopsTheLastRun`). There is a plan exactly when everything it
    needs is ready (`ResolvedIff`), and otherwise the first thing that is not is shown (`FirstFailureShows`). The
    remaining results say what is on the screen after each action. */
module UiShows {
  import opened Options
  import opened Ordering
  import opened UiState
  import opened UiProofs

  // ----- resolving -----

  /** Everything a plan needs is there. */
  predicate Ready(s: State) {
    && (forall x :: x in s.selectedSources ==> Connected(s.sourceStates, x))
    && s.selectedSources != [] && |s.selectedCandidates| >= 2 && s.subscription == READY && s.gbrainReadiness.validated
  }

  /** There is a plan exactly when sources are selected and connected, two candidates are, the subscription is
      ready and GBrain validated. It uses the embedding that is ready for recommendations, if one is. */
  lemma ResolvedIff(s: State)
    ensures Resolved(s).plan.Some? <==> Ready(s)
    ensures Ready(s) ==>
      && Resolved(s).setupError == ""
      && Resolved(s).plan.value.embeddingBackend ==
           if s.embedding.recommendationReady && s.embedding.backend.Some? && s.embedding.backend.value != ""
           then s.embedding.backend.value else "local-hash"
  {
    hide SubscriptionName, ProviderMode, Connected;
    assert Snapshot(s.subscription, s.embedding, s.sourceStates, s.provider).provider == s.provider;
  }

  /** Otherwise the first of these that fails is shown. */
  lemma FirstFailureShows(s: State)
    requires !Ready(s)
    ensures Resolved(s).setupError ==
      if exists x :: x in s.selectedSources && !Connected(s.sourceStates, x) then "SOURCE_AUTH_UNAVAILABLE"
      else if |s.selectedSources| == 0 then "KNOWLEDGE_SOURCE_REQUIRED"
      else if |s.selectedCandidates| < 2 then "TWO_CANDIDATES_REQUIRED"
      else if s.subscription != READY then SubscriptionName(s.subscription)
      else s.gbrainReadiness.detail
  {
    hide SubscriptionName, ProviderMode, Connected;
  }

  lemma NamesShown()
    ensures ProviderMode(CODEX) == "codex" + "-subscription" && ProviderMode(CLAUDE) == "claude" + "-subscription"
    ensures ProviderMode(KIMI) == "kimi" + "-subscription" && ProviderMode(GROK) == "grok" + "-subscription"
    ensures SubscriptionName(READY) == "READY" && SubscriptionName(UNSUPPORTED) == "UNSUPPORTED"
    ensures SubscriptionName(CLI_UNAVAILABLE) == "SUBSCRIPTION_CLI_UNAVAILABLE"
    ensures SubscriptionName(AUTH_UNAVAILABLE) == "SUBSCRIPTION_AUTH_UNAVAILABLE"
    ensures SubscriptionName(EXECUTION_UNAVAILABLE) == "SUBSCRIPTION_EXECUTION_UNAVAILABLE"
  {
  }

  /** The UI opens on the connections, with Slack and Notion, every candidate, Codex and quick start chosen. It has
      no plan yet, and nothing runs. */
  lemma FirstScreen(embedding: Embedding)
    ensures var s := Initial(embedding);
      && s.screen == CONNECTIONS && s.selectedSources == [SLACK, NOTION] && s.provider == CODEX
      && s.selectedCandidates == [LLM_WIKI, MEM0, GBRAIN_CANDIDATE] && s.embedding == embedding
      && s.gbrain == QuickStart && s.gbrainReadiness.validated && !Ready(s)
      && s.plan.None? && !s.running && s.activeRun.None? && s.activeLogin.None? && s.result.None?
  {
  }

  // ----- what is asked of the host -----

  /** When an action asks the host for an effect, action by action. */
  predicate Asks(s: State, action: Action, e: Effect) {
    match e
    case LoadConnections(provider) =>
      || action == SelectProvider(provider)
      || (action.RefreshConnections? && provider == s.provider)
      || (action.LoginSettled? && s.activeLogin == Some(action.handle) && action.error == "" && provider == s.provider)
    case InteractiveLogin(target, handle) => action == RequestLogin(target) && handle == LoginHandle(s.nextSequence)
    case ValidateGBrainProvider(config) => action.ValidateGBrain? && action.config == Some(config)
    case RunExperiment(plan, provider, handle) =>
      action.StartRun? && s.plan == Some(plan) && provider == s.provider && handle == RunHandle(s.nextSequence)
    case CancelActiveRun(handle) =>
      && s.running && s.activeRun == Some(handle)
      && ((action.CancelRun? && !s.cancelling) || action.RequestQuit?)
    case OpenExactReport(path) => action.OpenReport? && s.result.Some? && s.result.value.reportPath == Some(path)
    case ExitApplication => action.RequestQuit? && !(s.running && s.activeRun.Some?)
  }

  /** An action asks for one effect at most, and for each exactly when it should. */
  lemma EffectsExactly(s: State, action: Action, e: Effect)
    ensures |Effects(s, action)| <= 1 && (e in Effects(s, action) <==> Asks(s, action, e))
  {
    hide Resolved, Toggled, Without, StageStatuses, OutcomeStatuses, Elapsed, RunHandle, LoginHandle, Advance, Back,
      SameSetup;
    if IsGBrain(action) {
      AskedByGBrain(s, action, e);
    } else if IsSelection(action) {
      AskedBySelection(s, action, e);
    } else if IsRunControl(action) {
      AskedByRun(s, action, e);
    } else {
      AskedBySession(s, action, e);
    }
  }

  lemma AskedByGBrain(s: State, action: Action, e: Effect)
    requires IsGBrain(action)
    ensures var effects := ReduceGBrain(s, action).effects;
      |effects| <= 1 && (e in effects <==> Asks(s, action, e))
  {
    hide Resolved, RunHandle, LoginHandle, SameSetup;
  }

  lemma AskedBySelection(s: State, action: Action, e: Effect)
    requires IsSelection(action)
    ensures var effects := ReduceSelection(s, action).effects;
      |effects| <= 1 && (e in effects <==> Asks(s, action, e))
  {
    hide Resolved, Toggled, Without, Advance, RunHandle, LoginHandle, SameSetup;
  }

  lemma AskedByRun(s: State, action: Action, e: Effect)
    requires IsRunControl(action)
    ensures var r := ReduceRun(s, action);
      && (r.Reduced? ==> |r.effects| <= 1 && (e in r.effects <==> Asks(s, action, e)))
      && (r.AssertionFailed? ==> !Asks(s, action, e))
  {
    hide StageStatuses, OutcomeStatuses, Elapsed, RunHandle, LoginHandle, NoHandles, SameSetup;
  }

  lemma AskedBySession(s: State, action: Action, e: Effect)
    requires !IsGBrain(action) && !IsSelection(action) && !IsRunControl(action)
    ensures var effects := ReduceSession(s, action).effects;
      |effects| <= 1 && (e in effects <==> Asks(s, action, e))
  {
    hide LoginHandle, RunHandle, NoHandles, SameSetup, Back;
  }

  /** A run is told to stop exactly by a cancel that finds it running and not yet cancelling, or by quitting while
      it runs, and it is the active run that is told. */
  lemma CancelIff(s: State, action: Action, handle: string)
    ensures CancelActiveRun(handle) in Effects(s, action) <==>
      && s.running && s.activeRun == Some(handle)
      && ((action.CancelRun? && !s.cancelling) || action.RequestQuit?)
    ensures CancelActiveRun(handle) in Effects(s, action) ==>
      Effects(s, action) == [CancelActiveRun(handle)] && After(s, action).cancelling
      && (After(s, action).quitAfterSettlement <==> action.RequestQuit? || s.quitAfterSettlement)
  {
    hide Resolved, Toggled, Without, StageStatuses, OutcomeStatuses, Elapsed, RunHandle, LoginHandle, Advance, Back;
    if IsRunControl(action) {
      RunCancels(s, action, handle);
    } else if !IsGBrain(action) && !IsSelection(action) {
      SessionCancels(s, action, handle);
    }
  }

  lemma RunCancels(s: State, action: Action, handle: string)
    requires IsRunControl(action)
    ensures var r := ReduceRun(s, action);
      (r.Reduced? && CancelActiveRun(handle) in r.effects <==>
         s.running && s.activeRun == Some(handle) && action.CancelRun? && !s.cancelling)
      && (r.Reduced? && CancelActiveRun(handle) in r.effects ==>
            r.effects == [CancelActiveRun(handle)] && r.state.cancelling
            && r.state.quitAfterSettlement == s.quitAfterSettlement)
  {
    hide StageStatuses, OutcomeStatuses, Elapsed, RunHandle, NoHandles, SameSetup;
  }

  lemma SessionCancels(s: State, action: Action, handle: string)
    requires !IsGBrain(action) && !IsSelection(action) && !IsRunControl(action)
    ensures var r := ReduceSession(s, action);
      && (CancelActiveRun(handle) in r.effects <==> s.running && s.activeRun == Some(handle) && action.RequestQuit?)
      && (CancelActiveRun(handle) in r.effects ==>
            r.effects == [CancelActiveRun(handle)] && r.state.cancelling && r.state.quitAfterSettlement)
  {
    hide LoginHandle, NoHandles, SameSetup, Back;
  }

  /** The handle of the last run effect along the actions. */
  function LastRun(s: State, actions: seq<Action>): (handle: Option<string>) {
    if actions == [] then None
    else
      var before := actions[..|actions| - 1];
      var effects := Effects(Run(s, before), actions[|actions| - 1]);
      if |effects| == 1 && effects[0].RunExperiment? then Some(effects[0].handle) else LastRun(s, before)
  }

  lemma RunningStep(s: State, action: Action)
    ensures var s', effects := After(s, action), Effects(s, action);
      && (action.StartRun? && s.plan.Some? ==>
            s'.running && |effects| == 1 && effects[0].RunExperiment? && s'.activeRun == Some(effects[0].handle))
      && (!(action.StartRun? && s.plan.Some?) ==>
            && !(|effects| == 1 && effects[0].RunExperiment?)
            && (s'.running ==> s.running && (s'.activeRun == s.activeRun || action.ResetRun?)))
  {
    hide Resolved, Toggled, Without, StageStatuses, OutcomeStatuses, Elapsed, RunHandle, LoginHandle, Advance, Back;
    RunEffectOf(s, action);
  }

  ghost predicate NeverResetRunning(s: State, actions: seq<Action>) {
    forall i :: 0 <= i < |actions| ==> !(actions[i].ResetRun? && Run(s, actions[..i]).running)
  }

  /** While a run goes on, the active handle is that of the last run effect; so what a cancel stops is the run
      that was started last, and no other. */
  lemma {:induction false} CancelStopsTheLastRun(embedding: Embedding, actions: seq<Action>, handle: string)
    requires NeverResetRunning(Initial(embedding), actions)
    ensures var s := Run(Initial(embedding), actions);
      s.running ==> s.activeRun.Some? && s.activeRun == LastRun(Initial(embedding), actions)
    ensures var s := Run(Initial(embedding), actions);
      CancelActiveRun(handle) in Effects(s, CancelRun) <==>
        s.running && !s.cancelling && LastRun(Initial(embedding), actions) == Some(handle)
    decreases |actions|
  {
    var start := Initial(embedding);
    hide After, Effects;
    CancelIff(Run(start, actions), CancelRun, handle);
    if actions != [] {
      var n := |actions| - 1;
      var before := actions[..n];
      assert actions == before + [actions[n]];
      forall i | 0 <= i < n ensures !(before[i].ResetRun? && Run(start, before[..i]).running) {
        assert before[..i] == actions[..i];
      }
      CancelStopsTheLastRun(embedding, before, handle);
      ThenAction(start, before, actions[n]);
      RunningStep(Run(start, before), actions[n]);
    }
  }

  predicate LastAbout(outcomes: seq<(Option<Candidate>, string)>, c: Candidate, i: nat)
    requires i < |outcomes|
  {
    outcomes[i].0 == Some(c) && forall j :: i < j < |outcomes| ==> outcomes[j].0 != Some(c)
  }

  /** The last outcome that names the candidate decides what is shown for it; without one nothing changes. */
  lemma {:induction false} OutcomesShow(
    current: map<Candidate, string>, outcomes: seq<(Option<Candidate>, string)>, c: Candidate)
    ensures var shown := OutcomeStatuses(current, outcomes);
      && (c in shown <==> c in current || exists i :: 0 <= i < |outcomes| && outcomes[i].0 == Some(c))
      && (forall i :: 0 <= i < |outcomes| && LastAbout(outcomes, c, i) ==> c in shown && shown[c] == outcomes[i].1)
      && (c in current && (forall i :: 0 <= i < |outcomes| ==> outcomes[i].0 != Some(c)) ==> shown[c] == current[c])
    decreases |outcomes|
  {
    if outcomes != [] {
      var rest := outcomes[1..];
      var next := if outcomes[0].0.Some? then current[outcomes[0].0.value := outcomes[0].1] else current;
      assert forall i :: 0 <= i < |rest| ==> rest[i] == outcomes[i + 1];
      OutcomesShow(next, rest, c);
      forall i | 0 <= i < |outcomes| && LastAbout(outcomes, c, i)
        ensures var shown := OutcomeStatuses(current, outcomes); c in shown && shown[c] == outcomes[i].1
      {
        if i > 0 {
          assert rest[i - 1].0 == Some(c);
          assert LastAbout(rest, c, i - 1);
        } else {
          forall j | 0 <= j < |rest| ensures rest[j].0 != Some(c) { assert rest[j] == outcomes[j + 1]; }
        }
      }
    }
  }

  // ----- what is left alone -----

  /** `s` with what the action may change taken from `t`. */
  function Touched(s: State, action: Action, t: State): (r: State) {
    match action
    case BeginSetup => s.(screen := t.screen, returnHome := t.returnHome)
    case Navigate(_) => s.(screen := t.screen)
    case GoBack =>
      s.(screen := t.screen, gbrain := t.gbrain, gbrainReadiness := t.gbrainReadiness, gbrainError := t.gbrainError)
    case SelectGBrainMode(_) =>
      s.(screen := t.screen, gbrain := t.gbrain, gbrainReadiness := t.gbrainReadiness, gbrainError := t.gbrainError,
         plan := t.plan, setupError := t.setupError)
    case ValidateGBrain(_, _) => s.(gbrainError := t.gbrainError)
    case GBrainValidated(_, _) =>
      s.(screen := t.screen, gbrain := t.gbrain, gbrainReadiness := t.gbrainReadiness, gbrainError := t.gbrainError,
         plan := t.plan, setupError := t.setupError)
    case SelectProvider(_) => s.(provider := t.provider, plan := t.plan, setupError := t.setupError)
    case ToggleSource(_) => s.(selectedSources := t.selectedSources, plan := t.plan, setupError := t.setupError)
    case SkipSource(_) =>
      s.(selectedSources := t.selectedSources, screen := t.screen, plan := t.plan, setupError := t.setupError)
    case ToggleCandidate(_) =>
      s.(selectedCandidates := t.selectedCandidates, plan := t.plan, setupError := t.setupError)
    case ConnectionsLoaded(_) =>
      s.(provider := t.provider, subscription := t.subscription, embedding := t.embedding,
         sourceStates := t.sourceStates, plan := t.plan, setupError := t.setupError)
    case RequestLogin(_) => s.(nextSequence := t.nextSequence, activeLogin := t.activeLogin)
    case LoginSettled(_, _) => s.(activeLogin := t.activeLogin, setupError := t.setupError)
    case RunStarted(_, _) => s.(runStartedAt := t.runStartedAt)
    case StageObserved(_, _) =>
      s.(latestStage := t.latestStage, elapsedSeconds := t.elapsedSeconds, candidateStatuses := t.candidateStatuses)
    case CancelRun => s.(cancelling := t.cancelling)
    case RequestQuit =>
      s.(cancelling := t.cancelling, quitAfterSettlement := t.quitAfterSettlement, gbrain := t.gbrain)
    case StartRun =>
      s.(nextSequence := t.nextSequence, screen := t.screen, running := t.running, cancelling := t.cancelling,
         result := t.result, latestStage := t.latestStage, elapsedSeconds := t.elapsedSeconds,
         candidateStatuses := t.candidateStatuses, terminalReason := t.terminalReason, activeRun := t.activeRun,
         runStartedAt := t.runStartedAt, quitAfterSettlement := t.quitAfterSettlement, gbrain := t.gbrain,
         plan := t.plan, setupError := t.setupError)
    case RunCompleted(_) =>
      s.(screen := t.screen, running := t.running, cancelling := t.cancelling, result := t.result,
         terminalReason := t.terminalReason, candidateStatuses := t.candidateStatuses, activeRun := t.activeRun,
         runStartedAt := t.runStartedAt, gbrain := t.gbrain)
    case RunFailed(_) =>
      s.(screen := t.screen, running := t.running, cancelling := t.cancelling, terminalReason := t.terminalReason,
         setupError := t.setupError, activeRun := t.activeRun, runStartedAt := t.runStartedAt, gbrain := t.gbrain)
    case ResetRun =>
      s.(screen := t.screen, result := t.result, latestStage := t.latestStage, terminalReason := t.terminalReason,
         elapsedSeconds := t.elapsedSeconds, activeRun := t.activeRun, runStartedAt := t.runStartedAt,
         quitAfterSettlement := t.quitAfterSettlement)
    case RefreshConnections => s
    case OpenReport => s
  }

  /** No action touches anything else of the state. */
  lemma TouchesOnly(s: State, action: Action)
    ensures After(s, action) == Touched(s, action, After(s, action))
  {
    hide ReduceGBrain, ReduceSelection, ReduceRun, ReduceSession, Touched;
    if IsGBrain(action) {
      GBrainTouches(s, action);
    } else if IsSelection(action) {
      SelectionTouches(s, action);
    } else if IsRunControl(action) {
      RunTouches(s, action);
    } else {
      SessionTouches(s, action);
    }
    NothingTouched(s, action);
  }

  lemma NothingTouched(s: State, action: Action)
    ensures s == Touched(s, action, s)
  {
  }

  lemma GBrainTouches(s: State, action: Action)
    requires IsGBrain(action)
    ensures var t := ReduceGBrain(s, action).state; t == Touched(s, action, t)
  {
    hide Resolved, NoHandles, SameRun;
    match action {
      case SelectGBrainMode(_) => ResolvedKeeps(WithGBrain(s, REVIEW, QuickStart, QUICK_START_READY));
      case GBrainValidated(config, _) =>
        if config.Some? { ResolvedKeeps(WithGBrain(s, REVIEW, config.value, GBrainReadiness(true, "Validated"))); }
      case ValidateGBrain(_, _) =>
    }
  }

  lemma SelectionTouches(s: State, action: Action)
    requires IsSelection(action)
    ensures var t := ReduceSelection(s, action).state; t == Touched(s, action, t)
  {
    match action {
      case ToggleSource(x) => ResolvedKeeps(s.(selectedSources := Toggled(ALL_SOURCES, s.selectedSources, x)));
      case SkipSource(x) =>
        AdvanceMovesOnly(s, x);
        ResolvedKeeps(Advance(s.(selectedSources := Without(s.selectedSources, x))));
      case ToggleCandidate(x) =>
        ResolvedKeeps(s.(selectedCandidates := Toggled(ALL_CANDIDATES, s.selectedCandidates, x)));
      case ConnectionsLoaded(x) =>
        ResolvedKeeps(s.(provider := x.provider, subscription := x.subscription, embedding := x.embedding,
                         sourceStates := x.sources));
      case _ =>
    }
    hide Resolved, NoHandles, Toggled, Without, Advance;
  }

  lemma RunTouches(s: State, action: Action)
    requires IsRunControl(action)
    ensures var r := ReduceRun(s, action); r.Reduced? ==> r.state == Touched(s, action, r.state)
  {
    hide StageStatuses, OutcomeStatuses, Elapsed, RunHandle, NoHandles, SameSetup, ReduceStart;
    if action.StartRun? { StartTouches(s); }
  }

  lemma StartTouches(s: State)
    ensures var t := ReduceStart(s).state; t == Touched(s, StartRun, t)
  {
    hide RunHandle, SameSetup;
  }

  lemma SessionTouches(s: State, action: Action)
    requires !IsGBrain(action) && !IsSelection(action) && !IsRunControl(action)
    ensures var t := ReduceSession(s, action).state; t == Touched(s, action, t)
  {
    hide LoginHandle, NoHandles, SameSetup, SameRun, ReduceLogin, Back, Touched;
    match action {
      case RequestLogin(_) => LoginTouches(s, action);
      case LoginSettled(_, _) => LoginTouches(s, action);
      case GoBack => GoBackTouches(s);
      case RequestQuit => QuitTouches(s);
      case _ => ScreenTouches(s, action);
    }
  }

  lemma ScreenTouches(s: State, action: Action)
    requires action.BeginSetup? || action.Navigate? || action.OpenReport?
    ensures var t := ReduceSession(s, action).state; t == Touched(s, action, t)
  {
    hide LoginHandle, NoHandles, SameSetup, SameRun, ReduceLogin, Back;
  }

  lemma GoBackTouches(s: State)
    ensures var t := ReduceSession(s, GoBack).state; t == Touched(s, GoBack, t)
  {
    hide LoginHandle, NoHandles, SameSetup, SameRun, ReduceLogin, Back;
    BackTouches(s);
  }

  lemma LoginTouches(s: State, action: Action)
    requires action.RequestLogin? || action.LoginSettled?
    ensures var t := ReduceLogin(s, action).state; t == Touched(s, action, t)
  {
    hide LoginHandle, NoHandles, SameSetup, SameRun;
  }

  lemma BackTouches(s: State)
    ensures Back(s) == s.(screen := Back(s).screen)
  {
    hide IndexOf;
    var i := IndexOf(s.screen);
    if s.screen == HOME {
      assert Back(s) == s;
    } else if i == -1 || (i == 0 && s.returnHome) {
      assert Back(s) == s.(screen := HOME);
    } else {
      var screen := SETUP_SCREENS[if i - 1 > 0 then i - 1 else 0];
      assert Back(s) == s.(screen := screen);
    }
  }

  lemma QuitTouches(s: State)
    ensures var t := ReduceSession(s, RequestQuit).state; t == Touched(s, RequestQuit, t)
  {
    hide LoginHandle, NoHandles, SameSetup, SameRun, ReduceLogin, Back;
  }

  // ----- what is shown -----

  /** Semantic mode opens the screen that asks for it, unvalidated, and keeps the plan; quick start needs no asking
      and leads on to the review. */
  lemma ModeShows(s: State)
    ensures var t := After(s, SelectGBrainMode(true));
      && t.screen == GBRAIN && t.gbrain == s.gbrain && !t.gbrainReadiness.validated && t.gbrainError == ""
      && t.plan == s.plan && SameSetup(s, t) && SameRun(s, t)
    ensures var t := After(s, SelectGBrainMode(false));
      && t.screen == REVIEW && t.gbrain == QuickStart && t.gbrainReadiness.validated && t.gbrainError == ""
      && (t.plan.Some? <==> Ready(t)) && SameSetup(s, t) && SameRun(s, t)
  {
    ResolvedIff(WithGBrain(s, REVIEW, QuickStart, QUICK_START_READY));
    ResolvedKeeps(WithGBrain(s, REVIEW, QuickStart, QUICK_START_READY));
    hide Resolved, NoHandles;
  }

  /** Refused settings show why and ask nobody. A validation that succeeds is kept and leads on to the review; one
      that fails falls back to quick start, unvalidated, shows why, and stays where it is. */
  lemma ValidationShows(s: State, config: GBrainConfig, other: Option<GBrainConfig>, error: string)
    ensures After(s, ValidateGBrain(None, error)) == s.(gbrainError := error)
    ensures After(s, ValidateGBrain(Some(config), error)) == s
    ensures var t := After(s, GBrainValidated(Some(config), ""));
      && t.screen == REVIEW && t.gbrain == config && t.gbrainReadiness.validated && t.gbrainError == ""
      && (t.plan.Some? <==> Ready(t)) && SameSetup(s, t) && SameRun(s, t)
    ensures error != "" || other.None? ==>
      var t := After(s, GBrainValidated(other, error));
      && t.screen == s.screen && t.gbrain == QuickStart && !t.gbrainReadiness.validated && t.plan == s.plan
      && t.gbrainError == (if error == "" then "GBRAIN_PROVIDER_INVALID" else error)
      && SameSetup(s, t) && SameRun(s, t)
  {
    ResolvedIff(WithGBrain(s, REVIEW, config, GBrainReadiness(true, "Validated")));
    ResolvedKeeps(WithGBrain(s, REVIEW, config, GBrainReadiness(true, "Validated")));
    hide Resolved, NoHandles;
  }

  /** Another provider leaves no plan until its connections are loaded; what is loaded is shown as it is, and there
      is a plan exactly when everything is then ready. */
  lemma ConnectionsShow(s: State, provider: Provider, snapshot: Snapshot)
    ensures var t := After(s, SelectProvider(provider));
      t.provider == provider && t.plan.None? && t.setupError == "Refreshing" && SameRun(s, t)
    ensures After(s, RefreshConnections) == s
    ensures var t := After(s, ConnectionsLoaded(snapshot));
      && t.provider == snapshot.provider && t.subscription == snapshot.subscription
      && t.embedding == snapshot.embedding && t.sourceStates == snapshot.sources
      && t.selectedSources == s.selectedSources && t.selectedCandidates == s.selectedCandidates
      && (t.plan.Some? <==> Ready(t)) && SameRun(s, t)
  {
    var loaded := s.(provider := snapshot.provider, subscription := snapshot.subscription,
                     embedding := snapshot.embedding, sourceStates := snapshot.sources);
    ResolvedIff(loaded);
    ResolvedKeeps(loaded);
    hide Resolved, NoHandles;
  }

  lemma ResolvedKeeps(s: State)
    ensures Resolved(s) == s.(plan := Resolved(s).plan, setupError := Resolved(s).setupError)
  {
    hide ResolvePlan;
  }

  /** Skipping a source takes it out of the selection and goes on to the next screen. */
  lemma SkipShows(s: State, source: Source)
    requires Distinct(s.selectedSources)
    ensures var t := After(s, SkipSource(source));
      && (forall x :: x in t.selectedSources <==> x in s.selectedSources && x != source)
      && t.screen == Advance(s).screen && t.selectedCandidates == s.selectedCandidates && (t.plan.Some? <==> Ready(t))
  {
    hide *;
    var skipped := Advance(s.(selectedSources := Without(s.selectedSources, source)));
    WithoutMembers(s.selectedSources, source);
    AdvanceMovesOnly(s, source);
    ResolvedIff(skipped);
    ResolvedKeeps(skipped);
    SkipIs(s, source);
    ReadyLater(skipped, Resolved(skipped));
  }

  /** Toggling changes nothing but the selection. Either way there is a plan exactly when what is then selected is
      ready. */
  lemma ToggleShows(s: State, source: Source, candidate: Candidate)
    ensures var t := After(s, ToggleSource(source));
      && (forall x ::
            x in t.selectedSources <==> if x == source then x !in s.selectedSources else x in s.selectedSources)
      && t.screen == s.screen && t.selectedCandidates == s.selectedCandidates && (t.plan.Some? <==> Ready(t))
    ensures var t := After(s, ToggleCandidate(candidate));
      && (forall x ::
            x in t.selectedCandidates <==>
              if x == candidate then x !in s.selectedCandidates else x in s.selectedCandidates)
      && t.screen == s.screen && t.selectedSources == s.selectedSources && (t.plan.Some? <==> Ready(t))
  {
    hide *;
    var toggled := s.(selectedSources := Toggled(ALL_SOURCES, s.selectedSources, source));
    var chosen := s.(selectedCandidates := Toggled(ALL_CANDIDATES, s.selectedCandidates, candidate));
    EverySource(s.selectedSources, source);
    EveryCandidate(s.selectedCandidates, candidate);
    ToggleFlips(ALL_SOURCES, s.selectedSources, source);
    ToggleFlips(ALL_CANDIDATES, s.selectedCandidates, candidate);
    ResolvedIff(toggled);
    ResolvedIff(chosen);
    ResolvedKeeps(toggled);
    ResolvedKeeps(chosen);
    ToggleIs(s, source, candidate);
    ReadyLater(toggled, Resolved(toggled));
    ReadyLater(chosen, Resolved(chosen));
  }

  lemma ReadyLater(s: State, t: State)
    requires t == s.(plan := t.plan, setupError := t.setupError)
    ensures Ready(s) <==> Ready(t)
  {
  }

  /** A completed run is over, shows its own result, and opens its own report and no other. */
  lemma CompletedRunShows(s: State, result: RunResult)
    ensures var s' := After(s, RunCompleted(result));
      && !s'.running && !s'.cancelling && s'.activeRun.None? && s'.screen == RESULTS
      && s'.result == Some(result) && s'.terminalReason == result.status
      && s'.candidateStatuses == OutcomeStatuses(s.candidateStatuses, result.outcomes)
      && SameSetup(s, s') && s'.plan == s.plan
    ensures var s' := After(s, RunCompleted(result));
      && Effects(s', OpenReport) == (if result.reportPath.Some? then [OpenExactReport(result.reportPath.value)] else [])
      && Effects(s', CancelRun) == [] && Effects(s', RequestQuit) == [ExitApplication]
  {
    hide OutcomeStatuses, SameSetup, Reduce;
    CompletedIs(s, result);
    var s' := After(s, RunCompleted(result));
    QuietWhenOver(s');
  }

  lemma CompletedIs(s: State, result: RunResult)
    ensures After(s, RunCompleted(result)) ==
      s.(screen := RESULTS, running := false, cancelling := false, result := Some(result),
         terminalReason := result.status, candidateStatuses := OutcomeStatuses(s.candidateStatuses, result.outcomes),
         activeRun := None, runStartedAt := None, gbrain := QuickStart)
    ensures SameSetup(s, After(s, RunCompleted(result)))
  {
    hide OutcomeStatuses;
  }

  lemma QuietWhenOver(s: State)
    requires !s.running && s.result.Some?
    ensures var path := s.result.value.reportPath;
      && Effects(s, OpenReport) == (if path.Some? then [OpenExactReport(path.value)] else [])
      && Effects(s, CancelRun) == [] && Effects(s, RequestQuit) == [ExitApplication]
  {
  }

  /** A failed run is over, too, and shows why; what it had shown of candidates and results stays. */
  lemma FailedRunShows(s: State, reason: string)
    ensures var s' := After(s, RunFailed(reason));
      && !s'.running && !s'.cancelling && s'.activeRun.None? && s'.screen == RESULTS
      && s'.terminalReason == reason && s'.setupError == reason
      && s'.result == s.result && s'.candidateStatuses == s.candidateStatuses && SameSetup(s, s') && s'.plan == s.plan
  {
  }

  /** A stage shows the whole seconds since the run started, never less than none, and marks the candidates it
      names; messages for another handle change nothing. */
  lemma StageShows(s: State, handle: string, startedAt: real, event: Stage, observedAt: real, c: Candidate)
    ensures s.activeRun != Some(handle) ==> After(s, RunStarted(handle, startedAt)) == s
    ensures s.activeLogin != Some(handle) ==> forall error :: After(s, LoginSettled(handle, error)) == s
    ensures s.activeRun == Some(handle) ==>
      var t := After(After(s, RunStarted(handle, startedAt)), StageObserved(event, observedAt));
      && t.latestStage == Some(event) && t.elapsedSeconds >= 0
      && (observedAt <= startedAt ==> t.elapsedSeconds == 0)
      && (observedAt > startedAt ==>
            t.elapsedSeconds as real <= observedAt - startedAt < t.elapsedSeconds as real + 1.0)
      && c in t.candidateStatuses
      && t.candidateStatuses[c] ==
           if c in event.mentions then event.status else if c in s.candidateStatuses then s.candidateStatuses[c]
           else "PENDING"
  {
    assert c in ALL_CANDIDATES;
  }

  /** A login is asked for under a fresh handle; when that one settles without an error the connections are loaded
      again, with an error it is shown, and any other handle is ignored. */
  lemma LoginSettles(s: State, target: LoginTarget, handle: string, error: string)
    ensures var t := After(s, RequestLogin(target));
      && Effects(s, RequestLogin(target)) == [InteractiveLogin(target, LoginHandle(s.nextSequence))]
      && t.activeLogin == Some(LoginHandle(s.nextSequence))
    ensures s.activeLogin == Some(handle) ==>
      var t := After(s, LoginSettled(handle, error));
      && t.activeLogin.None? && t.plan == s.plan && (error == "" <==> t.setupError == "")
      && Effects(s, LoginSettled(handle, error)) == if error == "" then [LoadConnections(s.provider)] else []
    ensures s.activeLogin != Some(handle) ==> Effects(s, LoginSettled(handle, error)) == []
  {
    hide LoginHandle;
  }

  /** Going back undoes going on, from every setup screen but the last. */
  lemma BackUndoesAdvance(s: State)
    requires s.screen in SETUP_SCREENS && s.screen != REVIEW
    ensures Advance(s).screen != s.screen && Back(Advance(s)) == s
  {
  }

  /** The setup runs from the connections over Slack, Notion and the candidates to the review, and stays there. */
  lemma SetupOrder(s: State)
    ensures Advance(s).screen == match s.screen {
      case CONNECTIONS => SLACK_SCREEN
      case SLACK_SCREEN => NOTION_SCREEN
      case NOTION_SCREEN => CANDIDATES
      case CANDIDATES => REVIEW
      case _ => s.screen
    }
  {
  }

  lemma SessionReduces(s: State, action: Action)
    requires !IsGBrain(action) && !IsSelection(action) && !IsRunControl(action)
    ensures After(s, action) == ReduceSession(s, action).state
  {
    hide ReduceSelection, ReduceGBrain, ReduceRun, ReduceSession;
  }

  /** A setup begun from home goes back there; one that opened the UI has nowhere to go back to. */
  lemma BeginShows(s: State, screen: Screen)
    ensures var t := After(s, BeginSetup);
      && t == s.(screen := CONNECTIONS, returnHome := true) && After(t, GoBack) == t.(screen := HOME)
    ensures s.screen == CONNECTIONS && !s.returnHome ==> After(s, GoBack) == s
    ensures After(s, Navigate(screen)) == s.(screen := screen)
  {
    SessionReduces(s, BeginSetup);
    SessionReduces(s, GoBack);
    SessionReduces(s, Navigate(screen));
    SessionReduces(After(s, BeginSetup), GoBack);
    hide After, NoHandles, SameSetup;
  }

  /** From GBrain one goes back to the candidates with quick start, from any other screen outside the setup home. */
  lemma BackShows(s: State)
    requires s.screen !in SETUP_SCREENS
    ensures var t := After(s, GoBack);
      if s.screen == GBRAIN
      then t.screen == CANDIDATES && t.gbrain == QuickStart && t.gbrainReadiness.validated && t.plan == s.plan
      else t == s.(screen := HOME)
  {
    SessionReduces(s, GoBack);
    hide After, NoHandles, SameSetup;
  }

  /** A run that starts is shown running, with every selected candidate pending and nothing of an earlier run; the
      plan is used up, and GBrain is back at quick start. Without a plan nothing starts, and it is said why. */
  lemma StartShows(s: State)
    ensures s.plan.Some? ==>
      var t := After(s, StartRun);
      && t.screen == RUNNING && t.running && !t.cancelling && t.plan.None? && t.gbrain == QuickStart
      && t.activeRun == Some(RunHandle(s.nextSequence)) && t.nextSequence == s.nextSequence + 1
      && (forall c :: c in t.candidateStatuses <==> c in s.selectedCandidates)
      && (forall c :: c in t.candidateStatuses ==> t.candidateStatuses[c] == "PENDING")
      && t.result.None? && t.latestStage.None? && t.elapsedSeconds == 0 && t.terminalReason == ""
      && t.runStartedAt.None? && !t.quitAfterSettlement && SameSetup(s, t)
    ensures s.plan.None? ==>
      After(s, StartRun) == s.(setupError := if s.setupError == "" then "PLAN_UNAVAILABLE" else s.setupError)
  {
    hide RunHandle;
  }

  /** A reset shows nothing of the run any more, its report included, and touches nothing that a plan is about. */
  lemma ResetShows(s: State)
    ensures var t := After(s, ResetRun);
      && t.screen == HOME && t.result.None? && t.latestStage.None? && t.terminalReason == "" && t.elapsedSeconds == 0
      && t.activeRun.None? && t.runStartedAt.None? && !t.quitAfterSettlement
      && t.plan == s.plan && SameSetup(s, t) && Effects(t, OpenReport) == []
  {
  }

  // ----- skipping and toggling -----

  lemma EverySource(selected: seq<Source>, source: Source)
    ensures Distinct(ALL_SOURCES) && source in ALL_SOURCES && forall x :: x in selected ==> x in ALL_SOURCES
  {
    forall x: Source ensures x in ALL_SOURCES { SourceListed(x); }
  }

  lemma SourceListed(x: Source)
    ensures x in ALL_SOURCES
  {
    var all := ALL_SOURCES;
    assert all[0] == SLACK && all[1] == NOTION && all[2] == CONFLUENCE && all[3] == GOOGLE_DRIVE;
    assert all[4] == SHAREPOINT;
  }

  lemma EveryCandidate(selected: seq<Candidate>, candidate: Candidate)
    ensures Distinct(ALL_CANDIDATES) && candidate in ALL_CANDIDATES
    ensures forall x :: x in selected ==> x in ALL_CANDIDATES
  {
    forall x: Candidate ensures x in ALL_CANDIDATES { CandidateListed(x); }
  }

  lemma CandidateListed(x: Candidate)
    ensures x in ALL_CANDIDATES
  {
    var all := ALL_CANDIDATES;
    assert all[0] == LLM_WIKI && all[1] == MEM0 && all[2] == GBRAIN_CANDIDATE;
  }

  lemma AdvanceMovesOnly(s: State, source: Source)
    ensures var without := s.(selectedSources := Without(s.selectedSources, source));
      && Advance(without).screen == Advance(s).screen && Advance(without) == without.(screen := Advance(s).screen)
  {
    hide Without;
  }

  lemma SelectionReduces(s: State, action: Action)
    requires IsSelection(action)
    ensures After(s, action) == ReduceSelection(s, action).state
  {
    hide ReduceSelection, ReduceGBrain, ReduceRun, ReduceSession;
  }

  lemma SkipIs(s: State, source: Source)
    ensures After(s, SkipSource(source)) ==
      Resolved(Advance(s.(selectedSources := Without(s.selectedSources, source))))
  {
    hide After, Resolved, Advance, Without, Toggled, NoHandles, SameSetup;
    SelectionReduces(s, SkipSource(source));
  }

  lemma ToggleIs(s: State, source: Source, candidate: Candidate)
    ensures After(s, ToggleSource(source)) ==
      Resolved(s.(selectedSources := Toggled(ALL_SOURCES, s.selectedSources, source)))
    ensures After(s, ToggleCandidate(candidate)) ==
      Resolved(s.(selectedCandidates := Toggled(ALL_CANDIDATES, s.selectedCandidates, candidate)))
  {
    hide After, Resolved, Advance, Without, Toggled, NoHandles, SameSetup;
    SelectionReduces(s, ToggleSource(source));
    SelectionReduces(s, ToggleCandidate(candidate));
  }
}
