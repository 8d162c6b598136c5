/** The UI reducer: a pure state machine over 23 actions that emits effects for a host to run. */
module UiState {
  import opened Options

  datatype Source = SLACK | NOTION | CONFLUENCE | GOOGLE_DRIVE | SHAREPOINT

  datatype Candidate = LLM_WIKI | MEM0 | GBRAIN_CANDIDATE

  datatype Provider = CODEX | CLAUDE | KIMI | GROK

  datatype Subscription = READY | UNSUPPORTED | CLI_UNAVAILABLE | AUTH_UNAVAILABLE | EXECUTION_UNAVAILABLE

  datatype Connection = DISCONNECTED | CONNECTED | EXPIRED | REAUTHORIZATION_REQUIRED

  datatype Screen = HOME | CONNECTIONS | SLACK_SCREEN | NOTION_SCREEN | CANDIDATES | GBRAIN | REVIEW | RUNNING | RESULTS

  const ALL_SOURCES := [SLACK, NOTION, CONFLUENCE, GOOGLE_DRIVE, SHAREPOINT]
  const ALL_CANDIDATES := [LLM_WIKI, MEM0, GBRAIN_CANDIDATE]
  const SETUP_SCREENS := [CONNECTIONS, SLACK_SCREEN, NOTION_SCREEN, CANDIDATES, REVIEW]

  datatype GBrainConfig = QuickStart | Semantic(spec: string)

  datatype GBrainReadiness = GBrainReadiness(validated: bool, detail: string)

  const QUICK_START_READY := GBrainReadiness(true, "Keyword-only")
  const UNVALIDATED := GBrainReadiness(false, "Unvalidated")

  datatype Embedding = Embedding(backend: Option<string>, recommendationReady: bool)

  datatype Plan = Plan(
    providerMode: string,
    embeddingBackend: string,
    sources: seq<Source>,
    candidates: seq<Candidate>,
    budgetUsd: real,
    maxQuestions: nat,
    gbrain: GBrainConfig)

  /** `mentions` are the candidates whose name occurs in the stage's name. */
  datatype Stage = Stage(name: string, mentions: set<Candidate>, status: string)

  datatype RunResult = RunResult(status: string, outcomes: seq<(Option<Candidate>, string)>, reportPath: Option<string>)

  datatype Snapshot = Snapshot(
    subscription: Subscription, embedding: Embedding, sources: map<Source, Connection>, provider: Provider)

  datatype State = State(
    screen: Screen,
    selectedSources: seq<Source>,
    selectedCandidates: seq<Candidate>,
    provider: Provider,
    subscription: Subscription,
    embedding: Embedding,
    sourceStates: map<Source, Connection>,
    plan: Option<Plan>,
    setupError: string,
    latestStage: Option<Stage>,
    elapsedSeconds: int,
    candidateStatuses: map<Candidate, string>,
    result: Option<RunResult>,
    terminalReason: string,
    running: bool,
    cancelling: bool,
    activeRun: Option<string>,
    activeLogin: Option<string>,
    runStartedAt: Option<real>,
    quitAfterSettlement: bool,
    nextSequence: nat,
    returnHome: bool,
    gbrain: GBrainConfig,
    gbrainReadiness: GBrainReadiness,
    gbrainError: string)

  function Initial(embedding: Embedding): State {
    State(CONNECTIONS, [SLACK, NOTION], ALL_CANDIDATES, CODEX, AUTH_UNAVAILABLE, embedding, map[], None, "", None, 0,
          map[], None, "", false, false, None, None, None, false, 1, false, QuickStart, QUICK_START_READY, "")
  }

  datatype LoginTarget = SourceLogin(source: Source) | ProviderLogin(provider: Provider)

  datatype Action =
    | BeginSetup
    | Navigate(screen: Screen)
    | GoBack
    | SelectGBrainMode(semantic: bool)
    | ValidateGBrain(config: Option<GBrainConfig>, error: string)   // `None` when the settings are refused
    | GBrainValidated(config: Option<GBrainConfig>, error: string)
    | SelectProvider(provider: Provider)
    | ToggleSource(source: Source)
    | SkipSource(source: Source)
    | ToggleCandidate(candidate: Candidate)
    | RefreshConnections
    | RequestLogin(target: LoginTarget)
    | LoginSettled(handle: string, error: string)
    | ConnectionsLoaded(snapshot: Snapshot)
    | StartRun
    | RunStarted(handle: string, startedAt: real)
    | StageObserved(event: Stage, observedAt: real)
    | CancelRun
    | RequestQuit
    | RunCompleted(result: RunResult)
    | RunFailed(reason: string)
    | OpenReport
    | ResetRun

  datatype Effect =
    | LoadConnections(provider: Provider)
    | InteractiveLogin(target: LoginTarget, handle: string)
    | ValidateGBrainProvider(config: GBrainConfig)
    | RunExperiment(plan: Plan, provider: Provider, handle: string)
    | CancelActiveRun(handle: string)
    | OpenExactReport(path: string)
    | ExitApplication

  /** `AssertionFailed`: the reducer's own `assert` does not hold and no state comes out. */
  datatype Reduction = Reduced(state: State, effects: seq<Effect>) | AssertionFailed

  // ----- planning -----

  function ProviderName(p: Provider): string {
    match p
    case CODEX => "codex"
    case CLAUDE => "claude"
    case KIMI => "kimi"
    case GROK => "grok"
  }

  function SubscriptionName(s: Subscription): string {
    match s
    case READY => "READY"
    case UNSUPPORTED => "UNSUPPORTED"
    case CLI_UNAVAILABLE => "SUBSCRIPTION_CLI_UNAVAILABLE"
    case AUTH_UNAVAILABLE => "SUBSCRIPTION_AUTH_UNAVAILABLE"
    case EXECUTION_UNAVAILABLE => "SUBSCRIPTION_EXECUTION_UNAVAILABLE"
  }

  function ProviderMode(p: Provider): string {
    ProviderName(p) + "-subscription"
  }

  datatype Planned = Planned(plan: Plan) | SetupError(detail: string)

  function BuildAutomaticPlan(
    sources: seq<Source>, candidates: seq<Candidate>, subscription: Subscription, embedding: Embedding,
    provider: Provider, gbrain: GBrainConfig, readiness: GBrainReadiness): (r: Planned)
  {
    if sources == [] then SetupError("KNOWLEDGE_SOURCE_REQUIRED")
    else if |candidates| < 2 then SetupError("TWO_CANDIDATES_REQUIRED")
    else if subscription != READY then
      SetupError(SubscriptionName(subscription))
    else if !readiness.validated then SetupError(readiness.detail)
    else
      var backend :=
        if embedding.recommendationReady && embedding.backend.Some? && embedding.backend.value != ""
        then embedding.backend.value else "local-hash";
      Planned(Plan(ProviderMode(provider), backend, sources, candidates, 25.0,
                   if |sources| == 1 then 20 else 30, gbrain))
  }

  predicate Connected(states: map<Source, Connection>, source: Source) {
    source in states && states[source] == CONNECTED
  }

  function ResolvePlan(
    sources: seq<Source>, candidates: seq<Candidate>, snapshot: Snapshot, provider: Provider,
    gbrain: GBrainConfig, readiness: GBrainReadiness): (r: Planned)
  {
    if snapshot.provider != provider then
      SetupError("SUBSCRIPTION_PROVIDER_MISMATCH")
    else if exists s :: s in sources && !Connected(snapshot.sources, s) then
      SetupError("SOURCE_AUTH_UNAVAILABLE")
    else BuildAutomaticPlan(sources, candidates, snapshot.subscription, snapshot.embedding, provider, gbrain, readiness)
  }

  /** What a plan is about is untouched. */
  predicate SameSetup(s: State, s': State) {
    && s'.selectedSources == s.selectedSources && s'.selectedCandidates == s.selectedCandidates
    && s'.provider == s.provider && s'.subscription == s.subscription && s'.sourceStates == s.sourceStates
  }

  predicate SameRun(s: State, s': State) {
    s'.running == s.running && s'.activeRun == s.activeRun
  }

  function Resolved(s: State): (s': State)
    ensures SameSetup(s, s') && SameRun(s, s') && s'.nextSequence == s.nextSequence
    ensures s'.gbrain == s.gbrain && s'.gbrainReadiness == s.gbrainReadiness
    ensures s'.plan.Some? ==> s'.plan.value.gbrain == s.gbrain && s.gbrainReadiness.validated
  {
    var snapshot := Snapshot(s.subscription, s.embedding, s.sourceStates, s.provider);
    match ResolvePlan(s.selectedSources, s.selectedCandidates, snapshot, s.provider, s.gbrain, s.gbrainReadiness)
    case Planned(plan) => s.(plan := Some(plan), setupError := "")
    case SetupError(detail) => s.(plan := None, setupError := detail)
  }

  // ----- handles -----

  function Digit(n: nat): char
    requires n < 10
  {
    ('0' as int + n) as char
  }

  function Decimal(n: nat): string {
    if n < 10 then [Digit(n)] else Decimal(n / 10) + [Digit(n % 10)]
  }

  function RunHandle(n: nat): string { "run-" + Decimal(n) }

  function LoginHandle(n: nat): string { "login-" + Decimal(n) }

  lemma {:induction false} DecimalInjective(m: nat, n: nat)
    requires Decimal(m) == Decimal(n)
    ensures m == n
  {
    DecimalNonempty(m / 10);
    DecimalNonempty(n / 10);
    assert Decimal(m)[|Decimal(m)| - 1] == Digit(m % 10);
    assert Decimal(n)[|Decimal(n)| - 1] == Digit(n % 10);
    assert m % 10 == n % 10;
    if m >= 10 && n >= 10 {
      assert Decimal(m)[..|Decimal(m)| - 1] == Decimal(m / 10);
      assert Decimal(n)[..|Decimal(n)| - 1] == Decimal(n / 10);
      DecimalInjective(m / 10, n / 10);
    }
  }

  lemma DecimalNonempty(n: nat)
    ensures |Decimal(n)| >= 1
  {
  }

  /** Different sequence numbers give different handle texts. */
  lemma HandlesInjective(m: nat, n: nat)
    ensures RunHandle(m) == RunHandle(n) ==> m == n
    ensures LoginHandle(m) == LoginHandle(n) ==> m == n
  {
    assert RunHandle(m)[4..] == Decimal(m) && RunHandle(n)[4..] == Decimal(n);
    assert LoginHandle(m)[6..] == Decimal(m) && LoginHandle(n)[6..] == Decimal(n);
    if RunHandle(m) == RunHandle(n) || LoginHandle(m) == LoginHandle(n) { DecimalInjective(m, n); }
  }

  // ----- the reducer -----

  function IndexOf(screen: Screen): (i: int)
    ensures i == -1 <==> screen !in SETUP_SCREENS
    ensures i != -1 ==> 0 <= i < 5 && SETUP_SCREENS[i] == screen
  {
    match screen
    case CONNECTIONS => 0
    case SLACK_SCREEN => 1
    case NOTION_SCREEN => 2
    case CANDIDATES => 3
    case REVIEW => 4
    case _ => -1
  }

  function Advance(s: State): State {
    var i := IndexOf(s.screen);
    if i == -1 then s else s.(screen := SETUP_SCREENS[if i + 1 < 4 then i + 1 else 4])
  }

  function Back(s: State): State {
    var i := IndexOf(s.screen);
    if s.screen == HOME then s
    else if i == -1 then s.(screen := HOME)
    else if i == 0 && s.returnHome then s.(screen := HOME)
    else s.(screen := SETUP_SCREENS[if i - 1 > 0 then i - 1 else 0])
  }

  // The enumeration's members that are in `chosen`, in declaration order.
  function InOrder<T(==)>(all: seq<T>, chosen: set<T>): (r: seq<T>) {
    if all == [] then [] else (if all[0] in chosen then [all[0]] else []) + InOrder(all[1..], chosen)
  }

  function Toggled<T(==)>(all: seq<T>, selected: seq<T>, item: T): seq<T> {
    var values := set x | x in selected;
    InOrder(all, if item in values then values - {item} else values + {item})
  }

  function Without<T(==)>(selected: seq<T>, item: T): (r: seq<T>) {
    if selected == [] then []
    else (if selected[0] == item then [] else [selected[0]]) + Without(selected[1..], item)
  }

  function StageStatuses(current: map<Candidate, string>, event: Stage): map<Candidate, string> {
    map c | c in ALL_CANDIDATES ::
      if c in event.mentions then event.status else if c in current then current[c] else "PENDING"
  }

  function OutcomeStatuses(current: map<Candidate, string>, outcomes: seq<(Option<Candidate>, string)>)
    : map<Candidate, string>
    decreases |outcomes|
  {
    if outcomes == [] then current
    else
      OutcomeStatuses(
        if outcomes[0].0.Some? then current[outcomes[0].0.value := outcomes[0].1] else current, outcomes[1..])
  }

  function Elapsed(startedAt: Option<real>, observedAt: real): int {
    if startedAt.None? || observedAt < startedAt.value then 0 else (observedAt - startedAt.value).Floor
  }

  // ----- the reducer, in four groups of actions -----

  predicate IsGBrain(action: Action) {
    action.SelectGBrainMode? || action.ValidateGBrain? || action.GBrainValidated?
  }

  predicate IsSelection(action: Action) {
    match action
    case SelectProvider(_) => true
    case ToggleSource(_) => true
    case SkipSource(_) => true
    case ToggleCandidate(_) => true
    case RefreshConnections => true
    case ConnectionsLoaded(_) => true
    case _ => false
  }

  predicate IsRunControl(action: Action) {
    match action
    case StartRun => true
    case RunStarted(_, _) => true
    case StageObserved(_, _) => true
    case CancelRun => true
    case RunCompleted(_) => true
    case RunFailed(_) => true
    case ResetRun => true
    case _ => false
  }

  predicate OwnsHandle(e: Effect) {
    e.RunExperiment? || e.InteractiveLogin?
  }

  // The state a GBrain choice leads to, before its plan is worked out again.
  function WithGBrain(s: State, screen: Screen, gbrain: GBrainConfig, readiness: GBrainReadiness): State {
    s.(screen := screen, gbrain := gbrain, gbrainReadiness := readiness, gbrainError := "")
  }

  predicate NoHandles(effects: seq<Effect>) {
    effects == [] || (|effects| == 1 && !OwnsHandle(effects[0]))
  }

  /** GBrain's mode and validation. */
  function ReduceGBrain(s: State, action: Action): (r: Reduction)
    ensures r.Reduced? && SameRun(s, r.state) && r.state.nextSequence == s.nextSequence
    ensures NoHandles(r.effects)
  {
    match action
    case SelectGBrainMode(semantic) =>
      if semantic then Reduced(WithGBrain(s, GBRAIN, s.gbrain, UNVALIDATED), [])
      else
        Reduced(Resolved(WithGBrain(s, REVIEW, QuickStart, QUICK_START_READY)), [])
    case ValidateGBrain(config, error) =>
      if config.None? then Reduced(s.(gbrainError := error), [])
      else Reduced(s, [ValidateGBrainProvider(config.value)])
    case GBrainValidated(config, error) =>
      if error != "" || config.None? then
        Reduced(s.(gbrain := QuickStart, gbrainReadiness := UNVALIDATED,
                   gbrainError := if error != "" then error else "GBRAIN_PROVIDER_INVALID"), [])
      else
        Reduced(Resolved(WithGBrain(s, REVIEW, config.value, GBrainReadiness(true, "Validated"))), [])
    case _ => Reduced(s, [])
  }

  /** Sources, candidates and the subscription. */
  function ReduceSelection(s: State, action: Action): (r: Reduction)
    ensures r.Reduced? && SameRun(s, r.state) && r.state.nextSequence == s.nextSequence
    ensures NoHandles(r.effects)
  {
    match action
    case SelectProvider(provider) =>
      Reduced(s.(provider := provider, plan := None, setupError := "Refreshing"),
              [LoadConnections(provider)])
    case ToggleSource(source) =>
      Reduced(Resolved(s.(selectedSources := Toggled(ALL_SOURCES, s.selectedSources, source))), [])
    case SkipSource(source) =>
      Reduced(Resolved(Advance(s.(selectedSources := Without(s.selectedSources, source)))), [])
    case ToggleCandidate(candidate) =>
      Reduced(Resolved(s.(selectedCandidates := Toggled(ALL_CANDIDATES, s.selectedCandidates, candidate))), [])
    case RefreshConnections => Reduced(s, [LoadConnections(s.provider)])
    case ConnectionsLoaded(snapshot) =>
      Reduced(Resolved(s.(provider := snapshot.provider, subscription := snapshot.subscription,
                          embedding := snapshot.embedding, sourceStates := snapshot.sources)), [])
    case _ => Reduced(s, [])
  }

  /** Screens, logins, the report and quitting. Neither a plan nor a run is touched. */
  function ReduceLogin(s: State, action: Action): (r: Reduction)
    requires action.RequestLogin? || action.LoginSettled?
    ensures r.Reduced? && SameSetup(s, r.state) && r.state.plan == s.plan && SameRun(s, r.state)
    ensures r.state.nextSequence == s.nextSequence + if action.RequestLogin? then 1 else 0
    ensures NoHandles(r.effects)
      || (action.RequestLogin? && r.effects == [InteractiveLogin(action.target, LoginHandle(s.nextSequence))])
  {
    match action
    case RequestLogin(target) =>
      var handle := LoginHandle(s.nextSequence);
      Reduced(s.(nextSequence := s.nextSequence + 1, activeLogin := Some(handle)), [InteractiveLogin(target, handle)])
    case LoginSettled(handle, error) =>
      if Some(handle) != s.activeLogin then Reduced(s, [])
      else
        Reduced(s.(activeLogin := None, setupError := if error != "" then "LOGIN_FAILED" else ""),
                if error != "" then [] else [LoadConnections(s.provider)])
  }

  function ReduceSession(s: State, action: Action): (r: Reduction)
    ensures r.Reduced? && SameSetup(s, r.state) && r.state.plan == s.plan && SameRun(s, r.state)
    ensures NoHandles(r.effects)
      || (action.RequestLogin? && r.effects == [InteractiveLogin(action.target, LoginHandle(s.nextSequence))])
  {
    match action
    case BeginSetup => Reduced(s.(screen := CONNECTIONS, returnHome := true), [])
    case Navigate(screen) => Reduced(s.(screen := screen), [])
    case GoBack =>
      if s.screen == GBRAIN then
        Reduced(WithGBrain(s, CANDIDATES, QuickStart, QUICK_START_READY), [])
      else Reduced(Back(s), [])
    case RequestLogin(_) => ReduceLogin(s, action)
    case LoginSettled(_, _) => ReduceLogin(s, action)
    case OpenReport =>
      if s.result.None? || s.result.value.reportPath.None? then Reduced(s, [])
      else Reduced(s, [OpenExactReport(s.result.value.reportPath.value)])
    case RequestQuit =>
      if s.running && s.activeRun.Some? then
        Reduced(s.(cancelling := true, quitAfterSettlement := true, gbrain := QuickStart),
                [CancelActiveRun(s.activeRun.value)])
      else Reduced(s, [ExitApplication])
    case _ => Reduced(s, [])
  }

  function ReduceStart(s: State): (r: Reduction)
    ensures r.Reduced? && SameSetup(s, r.state) && r.state.plan.None?
    ensures if s.plan.None? then r.effects == []
            else r.effects == [RunExperiment(s.plan.value, s.provider, RunHandle(s.nextSequence))]
  {
    if s.plan.None? then
      Reduced(s.(setupError := if s.setupError != "" then s.setupError
                               else "PLAN_UNAVAILABLE"), [])
    else
      var handle := RunHandle(s.nextSequence);
      Reduced(s.(nextSequence := s.nextSequence + 1, screen := RUNNING, running := true, cancelling := false,
                 result := None, latestStage := None, elapsedSeconds := 0,
                 candidateStatuses := (map c | c in s.selectedCandidates :: "PENDING"), terminalReason := "",
                 activeRun := Some(handle), runStartedAt := None, quitAfterSettlement := false,
                 gbrain := QuickStart, plan := None),
              [RunExperiment(s.plan.value, s.provider, handle)])
  }

  /** Starting, observing, cancelling and ending a run. A plan is used up, never made. */
  function ReduceRun(s: State, action: Action): (r: Reduction)
    ensures r.Reduced? ==> SameSetup(s, r.state) && (r.state.plan == s.plan || r.state.plan.None?)
    ensures r.AssertionFailed? <==> action.CancelRun? && s.running && !s.cancelling && s.activeRun.None?
    ensures r.Reduced? ==>
      || NoHandles(r.effects)
      || (action.StartRun? && s.plan.Some?
          && r.effects == [RunExperiment(s.plan.value, s.provider, RunHandle(s.nextSequence))])
  {
    match action
    case StartRun => ReduceStart(s)
    case RunStarted(handle, startedAt) =>
      if Some(handle) != s.activeRun then Reduced(s, []) else Reduced(s.(runStartedAt := Some(startedAt)), [])
    case StageObserved(event, observedAt) =>
      Reduced(s.(latestStage := Some(event), elapsedSeconds := Elapsed(s.runStartedAt, observedAt),
                 candidateStatuses := StageStatuses(s.candidateStatuses, event)), [])
    case CancelRun =>
      if !s.running || s.cancelling then Reduced(s, [])
      else if s.activeRun.None? then AssertionFailed
      else Reduced(s.(cancelling := true), [CancelActiveRun(s.activeRun.value)])
    case RunCompleted(result) =>
      Reduced(s.(screen := RESULTS, running := false, cancelling := false, result := Some(result),
                 terminalReason := result.status,
                 candidateStatuses := OutcomeStatuses(s.candidateStatuses, result.outcomes),
                 activeRun := None, runStartedAt := None, gbrain := QuickStart), [])
    case RunFailed(reason) =>
      Reduced(s.(screen := RESULTS, running := false, cancelling := false, terminalReason := reason,
                 setupError := reason, activeRun := None, runStartedAt := None, gbrain := QuickStart), [])
    case ResetRun =>
      Reduced(s.(screen := HOME, result := None, latestStage := None, terminalReason := "", elapsedSeconds := 0,
                 activeRun := None, runStartedAt := None, quitAfterSettlement := false), [])
    case _ => Reduced(s, [])
  }

  function Reduce(s: State, action: Action): (r: Reduction) {
    if IsGBrain(action) then ReduceGBrain(s, action)
    else if IsSelection(action) then ReduceSelection(s, action)
    else if IsRunControl(action) then ReduceRun(s, action)
    else ReduceSession(s, action)
  }

  // An action whose reduction fails leaves the host with the state it had.
  function After(s: State, action: Action): State {
    var r := Reduce(s, action);
    if r.Reduced? then r.state else s
  }

  function Effects(s: State, action: Action): seq<Effect> {
    var r := Reduce(s, action);
    if r.Reduced? then r.effects else []
  }

  function Run(s: State, actions: seq<Action>): (s': State)
    decreases |actions|
  {
    if actions == [] then s else Run(After(s, actions[0]), actions[1..])
  }
}
