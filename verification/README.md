# AutoBrain, modelled and proved

AutoBrain compares ways of giving an assistant a memory: it crawls a workspace, builds a benchmark from
it, runs several candidates under a spending cap, scores them, and recommends one. This project models the
logic that has to be right for the comparison to mean anything, and proves properties of it. The files
follow the program's own:

| files | what they model |
|---|---|
| `Cancellation`, `ExperimentContracts`, `ExperimentJob` | the cancellation signal, the lifecycle table, and the lock-protected registry of experiment jobs |
| `FormulaLock`, `FormulaManifest`, `Formula`, `FormulaVerify`, `FormulaGenerate` | the release formula: lock closure, manifest loading, parser, verifier, generator |
| `FormulaPatterns` | what the line patterns of that code match, both ways |
| `FormulaParseProofs`, `FormulaVerifyProofs`, `FormulaVerdict`, `FormulaHeader` | that the parser, the verifier and the readers of the header read a generated formula back |
| `FormulaExamples` | manifests that load, one of each kind the results speak of |
| `Metering`, `Reconciliation` | the shared spend ledger and the reconciliation of usage into one cost |
| `BenchmarkMining`, `BenchmarkProviders`, `BenchmarkBuild` | picking threads, holding some out, the two budgeted provider loops, isolation |
| `Corpus`, `RunCache`, `LeakageCache` | normalising documents, the memo tables in front of it, and the leakage scan that reads through them |
| `Orchestration` | running candidates under a hard cap and cleaning them up |
| `Evaluation`, `Decision` | scoring, aggregation and the choice of a winner |
| `TerminalText`, `UiState`, `UiProofs`, `UiShows` | terminal truncation, the UI reducer, the host that runs its effects, what the UI shows and asks for |
| `Options`, `Ordering`, `PyText` | optional values; stable sorting and `sorted(set(...))`; Python's text operations |

Code that updates fields under a lock is a class whose methods are the critical sections. Each method is
tied to a function of the old state, and the concurrency results are about every interleaving of those
functions: one step is one critical section, and the code between two locks (the factory call inside
`validate`, the run inside the executor, the gap between the budget check and the ledger's lock) is
the place where other steps may come in. Loops are loops, with what they compute stated as a function or
outright. Money, scores and widths are exact: floats are real numbers, `round(x, 4)` rounds half to even.

What the program takes from elsewhere is a parameter of the model: hash functions, Unicode tables, the
question, prompt and oracle patterns, JSON dumps, marker evaluation, the natural order of ids, what a
provider, a candidate, a factory or a cleanup answers, and the shuffles, which are any permutations. Where
a result needs something of a parameter (a dump that tells events apart, say) its `requires` says so.

## What the proofs found

* A cancel between the two halves of `validate` makes the second half raise INVALID_TRANSITION; it does so
  in no other case (`ValidateRaisesIffCancelled`).
* A job can be FAILED beside a loaded result that says otherwise (`FailedBesideLoadedResult`).
* A runner or factory that raises a BaseException outside Exception leaves its job RUNNING or VALIDATING
  without a result, until somebody cancels it (`StuckUntilCancelled`, `JobsGetStuck`).
* Two callers that share a budget can overshoot it by more than one event's cost
  (`TwoCallersOvershootMore`); one caller cannot, and in general the overshoot is what was in flight.
* The manifest loader accepts a resource URL with U+0085, U+2028 or U+2029 in it; its generator then
  renders a formula that its own parser cannot read (`BrokenUrlLoadsButCannotBeRead`; `ParseUndoesRender`
  has the exact condition).
* A manifest that declares a platform wheel called `virtualenv_install_with_resources` loads but is never
  accepted: the list line that names it reads as the call the verifier forbids (`RouteNameIsNeverAccepted`).
* A header URL with such a break can only change which method the verifier takes for the install method;
  when no piece of the header starts one, the verdict is as declared (`VerdictExact`, `VerdictOnRender`). A
  manifest where it does change is given (`SplitHomepageChangesVerdict`).
* Normalising a corpus twice is not normalising it once when merged documents had different URLs
  (`IdempotentIff`, `TwoPagesAreNotSettled`), so the identity of a normalised corpus can differ from that of the raw one; taken
  again it stays (`IdentityIsStable`).
* `_freeze_item` maps `{}` and `[]` to the same key, and `True` and `1` (`EmptyValuesCollide`,
  `TrueCollidesWithOne`); a list of `"bytes"` and some bytes shares its key with those bytes in the table of
  hashes (`BytesCollideWithPair`); a text serialised before feeds a later hash (`TextFeedsHash`).
  `HashRunExact` says exactly when a run of texts and hashes in any order is right. The source index is
  keyed by ids only and can be stale (`EditedDocumentIsStale`); tokens are keyed by the answer only
  (`AnswerTokensExact`).
* The cached leakage scan can miss a leak and can raise a false alarm; when is said exactly, for whatever
  the cache held before (`CachedScanExact`, `FalseAlarmIff`, `MissedLeakIff`). On a cache without texts it
  raises no false alarm, and a build without arguments and environment misses only a token that folds to
  `{}` (`EmptyArgumentsScan`, `OnlyBracesAreMissed`).
* With a holdout fraction above zero and exactly `min_cases` usable threads a benchmark is always refused
  as insufficient, although nothing is held out (`BuildBenchmark`, `TwentyThreadsAreRefused`).
* Cleanup that the workflow leaves part way is finished by `run`, except for a candidate that was marked
  but not yet called when an interrupt came (`PositionsExact`); a fatal error or a stray interrupt in the loop
  of `run` leaves later candidates uncleaned (`EscapesExact`), and a candidate whose run raises a
  BaseException that nothing catches leaves all of them uncleaned (`RunOrchestrator.Run`); candidates that
  share an id are cleaned up once between them.
* Aggregating a candidate raises on an inconsistent cost, a negative latency or a malformed citation, not
  only on a confidence out of range (`EvaluateCandidate`).
* A negative closeness epsilon empties the band of `select_winner`, where `min` raises (`SelectWinner`).
* A plan can stand beside a GBrain that is not validated, and a run can be started from it. This is so
  exactly when a switch to semantic mode or a failed validation came while there was a plan, and nothing has
  replaced the plan or the readiness since (`ExposedExactly`). Such a run carries the plan's own
  configuration, which is quick start or one that was validated (`RunsCarryValidated`).
* Resetting a run in progress and then cancelling it breaks the reducer's assertion
  (`BrokenAssertionIsReachable`).

## Model

| member | source | states |
|---|---|---|
| Cancellation.RunCancellation.CancelLocked | src/autobrain/cancellation.py:23-29 | the locked part of `cancel`: the first call raises the signal and takes the snapshot, any later call changes nothing and owes nothing |
| Cancellation.RunCancellation.AddLocked | src/autobrain/cancellation.py:44-53 | a callback is registered under a fresh id, or, when the signal is up, not registered but handed back to be run at once |
| Cancellation.RunCancellation.Remove | src/autobrain/cancellation.py:57-61 | withdrawing takes out that registration and no other; a callback run at once has nothing to withdraw |
| Cancellation.InvokeAll | src/autobrain/cancellation.py:29-31 | the loop after the lock runs the whole snapshot in order, and suppresses exactly the callbacks that raise |
| Cancellation.SnapshotContents | src/autobrain/cancellation.py:28-29 | a snapshot holds each live registration exactly once, in the order of registration |
| Cancellation.RaisedStepConserves | src/autobrain/cancellation.py:23-63 | once the signal is up, every step keeps, per callback, invocations made plus invocations owed; only a new registration adds one |
| Cancellation.StepKeepsInvariant | src/autobrain/cancellation.py:23-63 | every add, remove, cancel or invocation keeps the invariant that ties live ids, snapshot, pending immediate calls and log |
| Cancellation.InvokedAtMostOnce | src/autobrain/cancellation.py:23-63 | under every schedule a callback runs at most once |
| Cancellation.SettledMeansExactlyOnce | src/autobrain/cancellation.py:23-63 | once a raised signal has settled, a callback has run exactly once if it was registered, before or after, and not withdrawn before the snapshot; otherwise never |
| Cancellation.CancelRunsLiveRegistrationsInOrder | src/autobrain/cancellation.py:23-31 | nothing runs before the signal is raised, and the snapshot is then exactly the registrations not withdrawn, in order |
| Cancellation.RaisedSignalIsFinal | src/autobrain/cancellation.py:23-63 | a raised signal stays raised; later removals and repeated cancels neither add nor cancel an invocation |
| ExperimentContracts.PathsAreShort | src/autobrain/experiment_contracts.py:149-190 | a path through the transition table never meets a status twice, has at most five entries, and never leaves a terminal status |
| ExperimentContracts.TableExactly | src/autobrain/experiment_contracts.py:149-190 | what may follow a status: a cancellation at any time before the end, the next step of the way, and a failure of validating or running; nothing follows a terminal status |
| ExperimentJob.ExperimentJobBoundary.Create | src/autobrain/experiment_job.py:123-148 | an equal repeated request gives back the job as it is, a different one or a full registry is INVALID_REQUEST, otherwise one new CREATED job; no other job changes |
| ExperimentJob.ExperimentJobBoundary.ValidateBegin | src/autobrain/experiment_job.py:150-155 | only a CREATED job goes to VALIDATING and only then is the factory to be called |
| ExperimentJob.ExperimentJobBoundary.ValidateFinish | src/autobrain/experiment_job.py:156-171 | the second critical section: runner stored and READY or CANCELLED, or FAILED with the factory's error, or INVALID_TRANSITION, each field as the code leaves it |
| ExperimentJob.ExperimentJobBoundary.Start | src/autobrain/experiment_job.py:173-194 | only a READY job with a runner goes to RUNNING and gets its thread; the four other answers change nothing |
| ExperimentJob.ExperimentJobBoundary.Cancel | src/autobrain/experiment_job.py:204-225 | a job that is not terminal gets its signal raised and becomes CANCELLED; a terminal one is left alone |
| ExperimentJob.ExperimentJobBoundary.Result | src/autobrain/experiment_job.py:227-241 | the stored result, else the bare terminal status, else NOT_READY |
| ExperimentJob.ExperimentJobBoundary.Settle | src/autobrain/experiment_job.py:278-298 | the executor's section: a cancelled job keeps only the bare cancelled result, otherwise the loaded result with SUCCEEDED or FAILED; what is then answered for ever is said in `AnswerOfRun` |
| ExperimentJob.ExperimentJobBoundary.HandleCancelled | src/autobrain/experiment_job.py:299-303 | a run that stops by cancellation leaves CANCELLED and the bare cancelled result |
| ExperimentJob.ExperimentJobBoundary.HandleError | src/autobrain/experiment_job.py:304-318 | a run that raises leaves FAILED with its error, or CANCELLED without one when the signal is up |
| ExperimentJob.SlotStepKeepsInvariant | src/autobrain/experiment_job.py:150-318 | each critical section keeps the job invariant (status, runner, thread phase, signal and result agree) and never touches the request |
| ExperimentJob.StepKeepsInvariant | src/autobrain/experiment_job.py:123-318 | so does every step of the registry as a whole, creation included |
| ExperimentJob.HistoryIsAllowedPath | src/autobrain/experiment_contracts.py:149-190 | under every interleaving each job's status history starts at CREATED and is a path of the table that ends at its current status |
| ExperimentJob.TerminalAbsorbs | src/autobrain/experiment_job.py:150-318 | a terminal job keeps its status whatever happens later |
| ExperimentJob.EffectsHappenAtMostOnce | src/autobrain/experiment_job.py:150-194 | per job the factory is called, the thread started and `run()` invoked at most once |
| ExperimentJob.CancelledForGood | src/autobrain/experiment_job.py:204-241 | a cancelled job stays cancelled and answers only the bare cancelled result, even if a run finishes with a loaded one |
| ExperimentJob.CancelWins | src/autobrain/experiment_job.py:204-225 | a cancel that lands before a terminal status wins against everything that follows |
| ExperimentJob.AnswersAreFinal | src/autobrain/experiment_job.py:227-241 | whatever `result()` answers for a terminal job it answers for ever |
| ExperimentJob.CancellationIsConsistent | src/autobrain/experiment_job.py:204-318 | if only `cancel()` raises the signal, then at every lock release a raised signal means CANCELLED, and SUCCEEDED means a stored result that is not FAILED and a signal never raised |
| ExperimentJob.ValidateRaisesIffCancelled | src/autobrain/experiment_job.py:161-171 | the second half of `validate` raises exactly when a cancel landed between the halves, with INVALID_TRANSITION, and the job stays CANCELLED |
| ExperimentJob.ExecutorIsSafe | src/autobrain/experiment_job.py:267-318 | no reachable executor meets a forbidden transition; once it has left by a handler or an answer, the job is terminal with a result stored; a READY job has its runner |
| ExperimentJob.StuckUntilCancelled | src/autobrain/experiment_job.py:267-318 | a BaseException that is no Exception, raised by a runner or a factory, leaves the job RUNNING or VALIDATING without a result; a cancel, and nothing else, ever moves it |
| ExperimentJob.JobsGetStuck | src/autobrain/experiment_job.py:156-164 | both happen: the shortest reachable runs |
| ExperimentJob.RegistryIsBounded | src/autobrain/experiment_job.py:133-137 | the registry never holds more than `max_jobs` jobs |
| ExperimentJob.FailedBesideLoadedResult | src/autobrain/experiment_job.py:291-298 | a job ends FAILED beside a loaded result that is not FAILED exactly when it was running, not cancelled, and the orchestrator reported failure where the loader did not |
| ExperimentJob.NamesTell | src/autobrain/experiment_job.py:227-241 | each status answers under its own name |
| ExperimentJob.AnswerOfRun | src/autobrain/experiment_job.py:278-318 | over all interleavings: once the run of a RUNNING job is settled, `result()` answers for ever the loaded result itself, or FAILED with exactly the error raised, and the bare cancelled result exactly when the signal was up or the runner said so; the status agrees |
| ExperimentJob.AnswerOfFactory | src/autobrain/experiment_job.py:156-171 | a job nobody cancelled during `validate` keeps the runner that was built and is READY, or CANCELLED when its signal was raised, or answers for ever FAILED with the factory's own error |
| ExperimentJob.ResponsesTellTheState | src/autobrain/experiment_job.py:150-241 | in every reachable state an answer that names a status names the one the job then has, and each error of start and result has exactly its one reason |
| ExperimentJob.CreateAnswers | src/autobrain/experiment_job.py:123-148 | create is refused exactly for another request under the id or a full registry, and then changes nothing |
| ExperimentJob.CreatedAsAsked | src/autobrain/experiment_job.py:133-148 | a request that finds room creates exactly its own new job, and no later step changes the request of a job |
| ExperimentJob.JobsAreIndependent | src/autobrain/experiment_job.py:123-318 | where a job is depends on the operations on it alone, in their order, whatever happens to other jobs in between |
| ExperimentJob.ProgressIsComplete | src/autobrain/experiment_job.py:326-333 | the progress of a job is what was published for it, all of it and in order |
| ExperimentJob.UndisturbedJobSucceeds | src/autobrain/experiment_job.py:150-298 | a job that nobody cancels ends SUCCEEDED with its loaded result, its runner and no error |
| FormulaLock.DependencyItems | src/autobrain/release_formula.py:588-606 | a state brings in exactly its package's own dependencies and those of its extras; an unknown extra is refused |
| FormulaLock.PushTargets | src/autobrain/release_formula.py:607-610 | exactly the targets of enabled dependencies join what was pending |
| FormulaLock.ClosedSetHoldsPath | src/autobrain/release_formula.py:574-610 | any set of states with the root that follows every enabled edge holds every reachable state |
| FormulaLock.ClosureReached | src/autobrain/release_formula.py:574-610 | an empty worklist means every reachable state resolves and the names collected are exactly the reachable packages other than the root |
| FormulaLock.RequiredRuntime | src/autobrain/release_formula.py:574-610 | the worklist ends on every graph, cycles and extras included, and whichever pending state is popped next: it closes exactly when every reachable state resolves, with exactly the reachable names, and otherwise blames a reachable state that does not |
| FormulaLock.ArtifactsAreLocked | src/autobrain/release_formula.py:520-533 | the artifacts kept of a package are exactly its wheels with a URL and a `sha256:` hash |
| FormulaLock.NamesMatchIff | src/autobrain/release_formula.py:612-623 | neither difference of names is non-empty exactly when the manifest names the closure and the build resources and nothing else |
| FormulaLock.PinsMatch | src/autobrain/release_formula.py:625-631 | passes exactly when each resource named in the closure is pinned to an artifact of the lock |
| FormulaLock.WheelsMatchIff | src/autobrain/release_formula.py:625-631 | the same, said of reachability instead of the computed set |
| FormulaLock.ValidateLockedResources | src/autobrain/release_formula.py:504-631 | validation passes exactly when all that is reachable resolves, the manifest names exactly that and the build resources, and each reachable one is pinned to a locked wheel |
| FormulaLock.IndexTells | src/autobrain/release_formula.py:511-533 | of packages listed under one name the last one counts |
| FormulaLock.IndexHas | src/autobrain/release_formula.py:511-533 | the lock has exactly the names listed |
| FormulaLock.SampleNeeds | src/autobrain/release_formula.py:574-610 | on one lock, with an extra, a disabled dependency and an extra nobody asks for: exactly which packages are needed |
| FormulaLock.SampleValidates | src/autobrain/release_formula.py:504-631 | on that lock: a manifest that passes, one without a needed package and one with a hash of another kind that do not |
| FormulaManifest.LoadEach | src/autobrain/release_formula.py:229-258 | the loop succeeds exactly when each resource is well formed and no two names agree, normalised or not |
| FormulaManifest.BuildChecks | src/autobrain/release_formula.py:260-266 | the two checks on build resources say together that the five fixed ones stand in front and there are no others |
| FormulaManifest.LoadManifestResources | src/autobrain/release_formula.py:221-279 | loading the resources succeeds exactly on well-formed, pairwise distinct ones with the build resources in front and platform wheels that name some of them without repetition |
| FormulaManifest.LoadedIsFit | src/autobrain/release_formula.py:221-279 | what loads has everything that rendering relies on |
| FormulaManifest.ControlFree | src/autobrain/release_formula.py:131-141 | a string without Ruby control text nowhere opens a list of words |
| FormulaManifest.LoadedIsAccepted | src/autobrain/release_formula.py:281-327 | a header and resources that pass the loader's checks make a manifest that everything proved about rendering applies to |
| FormulaManifest.LoadManifest | src/autobrain/release_formula.py:201-327 | the loader returns a manifest exactly when both parts are well formed, and what it returns can be rendered |
| FormulaManifest.ControlIs | src/autobrain/release_formula.py:41-41 | Ruby control text is an interpolation, a command, or the start of a percent literal, anywhere in the text |
| FormulaManifest.NameTells | src/autobrain/release_formula.py:33-33 | a resource name is made of lower-case letters, digits and single joiners, none at an end |
| FormulaManifest.NormalizedTells | src/autobrain/release_formula.py:182-183 | a resource name is normalised character by character, each joiner to a dash, so two names collide exactly when they differ in joiners only |
| FormulaManifest.ApprovalShows | src/autobrain/release_formula.py:281-327 | the review, the hash and the URL of a header that loads each tell whether it is approved or prepared |
| FormulaManifest.LoadedHeaderTells | src/autobrain/release_formula.py:131-200 | what every field of a header that loads has: its first character, its characters, its length, no dot segment in a branch, no quote in a URL |
| FormulaManifest.VersionTells | src/autobrain/release_formula.py:35-35 | two numbers are no version; a third one makes them one, with any suffix of its kind |
| Formula.WheelKind | src/autobrain/release_formula.py:330-343 | a wheel file name of enough parts is universal exactly when every platform tag is `any`; with fewer parts it is malformed |
| Formula.SplitJoined | src/autobrain/release_formula.py:334-337 | splitting at a character undoes joining with it |
| Formula.ReadLine | src/autobrain/release_formula.py:354-400 | one line changes the block in progress, or finishes it, or raises the error of the first check that fails |
| Formula.ParseFormula | src/autobrain/release_formula.py:346-406 | the loop with its changing locals reads the text as the line-by-line reading function does |
| Formula.ParsedIsWellFormed | src/autobrain/release_formula.py:381-406 | any text that parses, rendered or not, gives at least one resource, with different normalised names, a non-empty URL each, and the kind of its archive |
| Formula.BlockRefuses | src/autobrain/release_formula.py:363-378 | inside a block another resource, a second URL and a second hash are each refused as what they are, in that order; other lines are passed over |
| Formula.BlockEnds | src/autobrain/release_formula.py:379-400 | a block that ends is refused for the first of no URL, unsafe name, repeated name and unknown archive that applies, and otherwise adds exactly its own resource |
| Formula.FirstErrorStays | src/autobrain/release_formula.py:401-406 | the first error is reported whatever follows; a text that ends inside a block, or has none, is refused |
| PyText.SpacesAre | src/autobrain/release_formula.py:353-354 | the ten characters `splitlines` breaks at, and the nineteen that are white space besides |
| PyText.LinesEnd | src/autobrain/release_formula.py:353-354 | any break ends a line, a carriage return and the line feed after it together, and text without a break is one line |
| FormulaPatterns.SdistIff | src/autobrain/release_formula.py:31-31 | what is no wheel is a source archive exactly by one of five suffixes |
| FormulaPatterns.FieldIff | src/autobrain/release_formula.py:23-24 | a line is a `url` or `sha256` line with a value exactly when it is spelled so: keyword, white space, the value between two equal quotes, white space |
| FormulaPatterns.StartIff | src/autobrain/release_formula.py:22-22 | and opens a block exactly when it is `resource`, a quoted name and `do` |
| FormulaPatterns.EndIff | src/autobrain/release_formula.py:25-25 | and ends one exactly when it is `end` alone |
| FormulaPatterns.EachLineAlone | src/autobrain/release_formula.py:409-410 | of any text exactly the lines are dropped that begin, after white space, with `#` |
| FormulaPatterns.CallIff | src/autobrain/release_formula.py:26-26 | the automatic route is called exactly by its word at the start of a line, with the line's end, white space or an opening parenthesis after it |
| FormulaPatterns.OpensIff | src/autobrain/release_formula.py:422-434 | what opens a nested block |
| FormulaPatterns.InstallStarts | src/autobrain/release_formula.py:415-420 | the install method starts at the first `def install`; without one there is no body, with one that never ends an error |
| FormulaPatterns.MatchIff | src/autobrain/release_formula.py:27-30 | the wheel list opens exactly with its word, an equals sign and `%w[` |
| FormulaPatterns.RegionIs | src/autobrain/release_formula.py:27-30 | and its names end where it can be closed first |
| FormulaPatterns.ClosesIff | src/autobrain/release_formula.py:27-30 | it is closed by `].freeze` with nothing else behind it on the line |
| FormulaPatterns.FirstListCounts | src/autobrain/release_formula.py:438-445 | the first list of the code counts |
| FormulaVerify.ExtractBody | src/autobrain/release_formula.py:421-435 | the depth loop finds the body that the recursive extractor finds, or none |
| FormulaVerify.ExtractInstallMethod | src/autobrain/release_formula.py:413-435 | the method is looked for in the text without comments; without one there is an empty body, an unterminated one is an error |
| FormulaVerify.NestedBodyIsExtracted | src/autobrain/release_formula.py:421-435 | however deeply blocks nest inside it, the body comes back in full, stripped, up to the method's own `end` |
| FormulaVerify.NoViolationsIff | src/autobrain/release_formula.py:475-480 | nothing is flagged exactly when the declared wheels are the platform wheels and, unless there are none, they go through the approved route and not the automatic one |
| FormulaVerify.VerifyFormula | src/autobrain/release_formula.py:448-486 | the verifier combines parser, wheel list, install method and route tests, and what it returns is well formed |
| FormulaVerify.ViolationsTell | src/autobrain/release_formula.py:475-480 | a platform wheel is flagged exactly when it is not audited or the route is wrong, an audited name exactly when it is no platform wheel |
| FormulaGenerate.UnescapeUndoes | src/autobrain/release_formula.py:186-189 | what is quoted reads back as it was, backslashes and quotes included |
| FormulaParseProofs.QuotedFound | src/autobrain/release_formula.py:22-24 | a quoted value without quotes is read back whole, whatever follows it |
| FormulaParseProofs.FieldLine | src/autobrain/release_formula.py:22-24 | a rendered field line gives back its value under its own keyword and opens no block |
| FormulaParseProofs.QuietQuoted | src/autobrain/release_formula.py:346-361 | no quoted header value, even one with line breaks in it, can make the parser open a block |
| FormulaParseProofs.FeedBlock | src/autobrain/release_formula.py:354-400 | one rendered block adds exactly its resource, or fails for the reason its URL gives |
| FormulaParseProofs.ParsedUpToExact | src/autobrain/release_formula.py:390-397 | one parsed resource for each manifest resource, with its name, URL, hash and kind, in order |
| FormulaParseProofs.ParseUndoesRender | src/autobrain/release_formula.py:346-406 | for every accepted manifest: parsing the rendered text gives back exactly its resources when every resource URL is free of line breaks and has a known archive kind, and otherwise fails and blames the first that has not |
| FormulaVerifyProofs.NameLineFacts | src/autobrain/release_formula.py:26-30 | a listed wheel name is no comment, no list and no method, and is the forbidden call only if it is that very word |
| FormulaVerifyProofs.WheelLinesIgnored | src/autobrain/release_formula.py:448-451 | the wheel list contains the forbidden call exactly when it lists that word |
| FormulaVerdict.NamesReadBack | src/autobrain/release_formula.py:438-445 | between the brackets of the rendered list stand exactly the listed names, in order |
| FormulaVerdict.WheelsFound | src/autobrain/release_formula.py:438-445 | the list is found where it was rendered, past any lines that open none, up to one with a quote in it |
| FormulaVerdict.SkipQuotedLines | src/autobrain/release_formula.py:27-30 | no match of the list pattern starts before a quote without its opening bracket: a header value, in however many pieces, never starts one |
| FormulaVerdict.InstallFound | src/autobrain/release_formula.py:413-435 | the rendered install method is extracted in full, its loop included |
| FormulaVerdict.CodeLinesAre | src/autobrain/release_formula.py:409-410 | without comments the rendered text has the pieces of the header and then exactly the other rendered lines, and the forbidden call occurs in it exactly when its word is listed |
| FormulaVerdict.VerdictExact | src/autobrain/release_formula.py:448-486 | for every accepted manifest with readable resources, line breaks in the header or not: resources and wheels read back in full, and the formula is valid exactly when the declared wheels are the platform wheels and, unless there are none, none is named like the automatic route and the method that is read takes the approved one |
| FormulaVerdict.VerdictOnRender | src/autobrain/release_formula.py:448-486 | when no piece of the header starts an install method, a rendered formula is accepted exactly when the declared wheels are the platform wheels and none is named like the automatic route |
| FormulaVerdict.UnbrokenUrlsInstallNothing | src/autobrain/release_formula.py:865-878 | header URLs without line breaks start no method |
| FormulaVerdict.RenderResources | src/autobrain/release_formula.py:884-896 | the loop with the previous role renders the blocks in order, an empty line at each change of role |
| FormulaVerdict.RenderWheels | src/autobrain/release_formula.py:881-881 | one indented line per declared wheel |
| FormulaVerdict.GenerateFormula | src/autobrain/release_formula.py:857-939 | the text returned is the rendered manifest; it is refused for the first unreadable resource, and otherwise returned exactly when the verdict on it is positive; when it is not, exactly the names the verifier flags are blamed |
| FormulaVerdict.FlaggedExactly | src/autobrain/release_formula.py:475-486 | what is flagged of a rendered formula, name by name |
| FormulaVerdict.VerifyRendered | src/autobrain/release_formula.py:930-939 | the generator's last step: the text, the error of its verification, or the names it flags |
| FormulaHeader.FixedLines | src/autobrain/release_formula.py:857-880 | the lines of the header that no value enters |
| FormulaHeader.HeaderReadsBack | src/autobrain/release_formula.py:857-880 | for every manifest that loads with unbroken header URLs: among the lines before the wheel list exactly one gives each value under its own keyword — class name, desc, homepage, url, sha256, license, head with its branch, python — and each digest in its own comment |
| FormulaHeader.InstallNamesPython | src/autobrain/release_formula.py:911-913 | the install method creates its environment with the manifest's python, without the `@` |
| FormulaHeader.LoadedRoundTrip | src/autobrain/release_formula.py:201-327 | from loaded input to generated text and back: header, resources and wheels all read back as they were given |
| FormulaExamples.SampleLoads | src/autobrain/release_formula.py:201-327 | the example manifests pass every check of the loader |
| FormulaExamples.SoundManifestIsAccepted | src/autobrain/release_formula.py:201-327 | a manifest the loader takes, whose rendering is read back and not flagged |
| FormulaExamples.BrokenUrlLoadsButCannotBeRead | src/autobrain/release_formula.py:131-160 | a manifest the loader takes with U+2028 in a resource URL, whose rendering cannot be parsed |
| FormulaExamples.RouteNameIsNeverAccepted | src/autobrain/release_formula.py:448-451 | a manifest the loader takes that lists the word of the automatic route, and is flagged whatever its archives are |
| FormulaExamples.SplitHomepageStartsMethod | src/autobrain/release_formula.py:413-419 | a manifest the loader takes, of whose homepage one piece reads as the start of the install method |
| FormulaExamples.SplitHomepageChangesVerdict | src/autobrain/release_formula.py:413-486 | one manifest with two homepages: accepted with the plain one, not accepted with the one of which a piece starts a method |
| Metering.MeteringBudget.constructor | src/autobrain/metering.py:119-132 | a ledger starts empty and unexceeded |
| Metering.MeteringBudget.Record | src/autobrain/metering.py:571-581 | the locked section appends the event, adds its cost if it has one, raises the flag and says so when that takes the spend over budget |
| Metering.StepKeepsBalance | src/autobrain/metering.py:532-581 | every check or commit keeps spend equal to the sum of known costs and the flag equal to being over budget, and takes nothing back |
| Metering.LedgerStaysBalanced | src/autobrain/metering.py:532-581 | the same over every interleaving of any number of callers: spend, flag and events only grow, budget and prices stay |
| Metering.LedgerFromStart | src/autobrain/metering.py:119-132 | in particular from a fresh ledger with a positive budget |
| Metering.OnlyPassedCallsAppend | src/autobrain/metering.py:532-581 | once the flag is up only calls already past the unlocked check append, each at most once, and all further spend is theirs |
| Metering.OvershootIsWhatWasInFlight | src/autobrain/metering.py:532-581 | the final spend exceeds the budget by at most the cost of the calls in flight when the flag flipped |
| Metering.SingleCallerOvershoot | src/autobrain/metering.py:532-581 | one call at a time overshoots by at most the cost of the last event |
| Metering.SingleCallerOvershootFromStart | src/autobrain/metering.py:532-581 | in particular from a fresh ledger |
| Metering.TwoCallersOvershootMore | src/autobrain/metering.py:532-532 | with two callers that bound fails: both pass the check before either commits |
| Metering.CostPerMillion | src/autobrain/metering.py:153-159 | a million input tokens cost the quoted input price and a million output tokens the output price |
| Metering.RecordTells | src/autobrain/metering.py:571-581 | a call is refused exactly when its event is priced with known tokens and the ledger is then over budget |
| Reconciliation.Accumulate | src/autobrain/metering.py:231-256 | the loop's sums, its cost, its warnings, and its completeness: every event measured, counted and priced |
| Reconciliation.CheckPhases | src/autobrain/metering.py:270-274 | complete exactly when every required phase is present, one warning per missing one |
| Reconciliation.CheckComplete | src/autobrain/metering.py:257-274 | the later checks only take completeness away, and leave it exactly when nothing stands in its way |
| Reconciliation.ReconcileUsage | src/autobrain/metering.py:199-309 | the accumulating loops compute the reconciliation the lemmas below are about |
| Reconciliation.FilterMembers | src/autobrain/metering.py:312-327 | a slice holds exactly the events of the requested role, candidate and phase |
| Reconciliation.KeysDoNotTie | src/autobrain/metering.py:181-196 | different events never tie in the sort key, because the key ends in their dump |
| Reconciliation.ReconcileIgnoresArrivalOrder | src/autobrain/metering.py:199-309 | the whole summary, rows and warnings included, is the same for every permutation of the events |
| Reconciliation.TotalIffComplete | src/autobrain/metering.py:289-300 | a total is reported exactly when the status is COMPLETE, which is exactly when all selected events are measured, counted and priced, phases are present, roles unmixed and native usage agrees; it is then the rounded sum of the known costs |
| Reconciliation.SlicesCoverLedger | src/autobrain/metering.py:312-327 | the slices of different candidates split the ledger's cost without loss or overlap |
| Reconciliation.CompleteSlicesSumToSpend | src/autobrain/metering.py:571-578 | when every candidate's slice of an all-candidate ledger is COMPLETE, the unrounded slice totals add up to exactly what the ledger has spent |
| Reconciliation.SummaryTells | src/autobrain/metering.py:289-309 | of the events as they arrived: input and output tokens are the sums over those in scope, each for itself; the rows are those events; the source is the weakest of theirs; COST_UNAVAILABLE exactly when nothing is known of any and there is no total; the one warning when nothing is in scope |
| Reconciliation.RowsAreInOrder | src/autobrain/metering.py:181-196 | the rows come by role, candidate, phase, ids, provider, model and dump |
| Reconciliation.WarningsExact | src/autobrain/metering.py:229-274 | a warning appears exactly when something calls for it: mixed roles, an event in scope that stands in the way of a total, named by its request or price key, GBrain's own count missing or different, a required phase without an event |
| Ordering.FirstCharacterDecides | src/autobrain/metering.py:181-196 | strings compare by the first character that differs, and a text comes before its continuations |
| Ordering.FirstPartDecides | src/autobrain/metering.py:181-196 | tuples by the first part that differs |
| BenchmarkMining.SortOut | src/autobrain/benchmark.py:422-429 | the filtering loop splits the threads by whether there is a reason against them, keeping order |
| BenchmarkMining.ValidAndRejectedPartition | src/autobrain/benchmark.py:422-429 | every thread is either valid or rejected with its reason, none is lost or repeated |
| BenchmarkMining.FillBuckets | src/autobrain/benchmark.py:434-436 | the buckets hold the threads exactly, each under its topic and channel, in order |
| BenchmarkMining.OneRound | src/autobrain/benchmark.py:440-449 | a round picks at least one thread and never more than the limit, loses none, and keeps every prefix of the picks fair |
| BenchmarkMining.RoundRobin | src/autobrain/benchmark.py:437-449 | the rounds end with exactly as many picks as asked for, all from the input, every prefix fair; the picks go round by round, in a round by bucket in ascending order, and within a bucket from its end |
| BenchmarkMining.MineRealCases | src/autobrain/benchmark.py:415-450 | exactly min(max_cases, valid) picks, none more often than it was given; at every point two buckets differ by at most one pick unless the smaller one is exhausted; the order of the picks is determined as in `RoundRobin` |
| BenchmarkMining.HoldoutsAreTheGreatest | src/autobrain/benchmark.py:1254-1282 | the split partitions the picks, keeps at least `min_cases` when there are as many, holds out exactly the target, and holds out only threads with the greatest natural keys |
| BenchmarkMining.KeyTells | src/autobrain/benchmark.py:434-436 | threads share a bucket exactly when they share topic and channel, as long as no topic has a NUL in it |
| BenchmarkProviders.ExtractRealOracles | src/autobrain/benchmark.py:804-933 | on every exit calls stay within the bound and the usage is the account of all parsed responses; which call stops it, if any, and with which status, is determined by the answers alone: the first that fails or overdraws, or the first one too many; a return has an oracle for each thread and stays in budget; under each root stands the oracle that answered for a thread of that root, the last one asked, and there are no other keys |
| BenchmarkProviders.PrepareScripted | src/autobrain/benchmark.py:971-984 | prepared responses: the first that does not parse stops everything, those about an unknown document are rejected, the others are paired with their documents in order |
| BenchmarkProviders.GenerateCases | src/autobrain/benchmark.py:959-1155 | the same account for generation, rejected responses included; it goes on exactly until enough cases are made or work or calls run out, and returns the cases that the usable, non-repeating responses up to there make, each with its holdout; never more than missing; rejections are noted with their reasons |
| BenchmarkProviders.SpentIsSum | src/autobrain/benchmark.py:907-933 | the account is one call for each answer and the sums of tokens and cost over those that parse, each for itself |
| BenchmarkProviders.OwnResponsesDistinct | src/autobrain/benchmark.py:920-933 | with distinct roots the oracle under a root is the answer to the call about that thread |
| BenchmarkProviders.ValidIffGrounded | src/autobrain/benchmark.py:1158-1174 | a generated case is usable exactly when its sources, claims and reference are grounded in the document and its question is not given away |
| BenchmarkProviders.EveryResponseCounts | src/autobrain/benchmark.py:1085-1155 | every parsed response used makes one case with its holdout or is noted; every case shows exactly what its own response and document say |
| BenchmarkProviders.LastWithIdIs | src/autobrain/benchmark.py:971-984 | of several documents with one id a prepared response is about the last |
| BenchmarkProviders.CycleGoesRound | src/autobrain/benchmark.py:985-990 | call `i` of a live generator asks about the document at `i`, counted round |
| BenchmarkBuild.RemoveHoldouts | src/autobrain/benchmark.py:1285-1300 | keeps exactly the documents that neither are, nor are children of, nor relate to one of the ids, sorted |
| BenchmarkBuild.FindTokens | src/autobrain/benchmark.py:481-485 | exactly the non-empty tokens that occur in a text when case is folded |
| BenchmarkBuild.ScanLeakage | src/autobrain/benchmark.py:453-517 | clean exactly when no scanned text holds a token or a marker; the locations are exactly those that do; so are the tokens and the marker reported |
| BenchmarkBuild.RealCaseRecords | src/autobrain/benchmark.py:750-801 | one case and one holdout per thread, built from that same thread |
| BenchmarkBuild.PrepareWork | src/autobrain/benchmark.py:951-990 | the work of a scripted generator is its known responses; that of a live one is the shuffled documents, over and over, as often as calls are allowed |
| BenchmarkBuild.Consult | src/autobrain/benchmark.py:569-597 | extraction and generation on one account end with the status, usage and cases that the answers determine; calls bounded and costs accounted on every exit of either, in budget whenever both return |
| BenchmarkBuild.Release | src/autobrain/benchmark.py:616-723 | it is released exactly when no scanned document, case or other visible text leaks; what is released is what was assembled, with exactly the documents not tied to a selected thread; anything else is LEAKAGE_DETECTED |
| BenchmarkBuild.Assemble | src/autobrain/benchmark.py:599-609 | the real cases in natural order, then the generated ones, cut at the cap; case and holdout agree on the id, index by index |
| BenchmarkBuild.AllSelected | src/autobrain/benchmark.py:539-544 | mining without a cap picks every valid thread |
| BenchmarkBuild.BuildBenchmark | src/autobrain/benchmark.py:520-723 | what the providers' answers and the counts determine decides exactly whether a build is blocked before the scan, with which status and usage; otherwise the cases are the remaining threads in order and what was made, and the build is OK exactly when the scan is clean. Every OK benchmark has between min and max cases, agrees with its holdouts index by index, has no held-out thread among its cases, and keeps no document that is, is a child of, or relates to a root or reply of any valid thread; the reserve has the size asked for and the greatest natural keys. Each real holdout carries the claims, contradictions and confidence of the oracle that answered for its own root, and its own thread's replies; the rejections reported are exactly those of mining, preparation and generation |
| BenchmarkBuild.InsufficientIff | src/autobrain/benchmark.py:552-611 | blocked as insufficient exactly when a holdout fraction meets exactly `min_cases` threads, or there are too few and nothing to generate from, or the cases made do not fill the gap, or a provider's own error says so |
| BenchmarkBuild.TwentyThreadsAreRefused | src/autobrain/benchmark.py:205-222 | with any settings the configuration allows, twenty valid threads are refused under any holdout fraction although none is held out, and under none they reach the scan |
| BenchmarkBuild.ApartIsIsolated | src/autobrain/benchmark.py:1285-1300 | a kept document neither is, nor is a child of, nor relates to the root or a reply of any thread |
| BenchmarkBuild.FallbackShows | src/autobrain/benchmark.py:750-801 | without an oracle the holdout takes claims and confidence from the human replies, and contradicts nothing |
| BenchmarkBuild.SidesAre | src/autobrain/benchmark.py:599-609 | each real case stands with its own thread's question, root and replies and with the claims, contradictions and confidence of the oracle that answered for it; the generated ones follow, up to the cap |
| BenchmarkBuild.MissingProviderIff | src/autobrain/benchmark.py:552-579 | a provider that is needed and missing is reported, without a call, before any other is asked; getting past the gate means that what is needed is there |
| Corpus.SplitJoined | src/autobrain/corpus.py:290-291 | splitting a joined list gives the list back, for non-empty parts without commas |
| Corpus.FillByContent | src/autobrain/corpus.py:59-91 | the dictionary loop folds the sorted documents, one entry per text in order of first appearance |
| Corpus.NormalizeRawItems | src/autobrain/corpus.py:35-91 | the two loops compute the normalisation the lemmas below are about, refusing at the first document beyond the boundary |
| Corpus.OneResultPerText | src/autobrain/corpus.py:59-91 | one document per distinct text, in id order, and none for any other text |
| Corpus.LeastIdLeads | src/autobrain/corpus.py:60-73 | each result is led by the input document with the least id among those with its text |
| Corpus.EachResultIsTheUnion | src/autobrain/corpus.py:74-90 | it carries exactly the union of the ids and references, and of the URLs, of the documents with its text, sorted, without repetition |
| Corpus.NormalizeIgnoresOrder | src/autobrain/corpus.py:43-91 | for distinct ids the result does not depend on the order of the input |
| Corpus.FirstPassSettles | src/autobrain/corpus.py:43-91 | after one pass the documents are settled: sorted, distinct in text, hashes, warnings and references already as a pass would leave them |
| Corpus.SecondAndThirdPass | src/autobrain/corpus.py:62-73 | a second pass changes only the URL lists, each to its document's own URL; a third changes nothing |
| Corpus.ResetKeepsIff | src/autobrain/corpus.py:67-70 | a second pass leaves a document as it is exactly when all documents merged into it had its URL |
| Corpus.IdempotentIff | src/autobrain/corpus.py:67-70 | normalising is idempotent on an input exactly when no two documents of one text have different URLs |
| Corpus.TwoPagesAreNotSettled | src/autobrain/corpus.py:67-70 | two pages with one text and two URLs: a second pass changes what the first merged |
| Corpus.IdentityIsStable | src/autobrain/corpus.py:94-121 | the corpus digest ignores the order of the documents, and from the normalised corpus on it no longer changes |
| Corpus.PrepareTells | src/autobrain/corpus.py:43-58 | preparing adds the hash of the text, and the warning exactly to prompt-like text; nothing else changes |
| Corpus.LeaderIsKept | src/autobrain/corpus.py:60-91 | a result is its leading input in every field but what is merged; its warning says prompt-like exactly when the text is or said so before |
| Corpus.RefusedExactly | src/autobrain/corpus.py:43-58 | there is a result exactly when the boundary check refuses no prepared document, and the first one refused is blamed |
| Corpus.IdentityTellsCorporaApart | src/autobrain/corpus.py:94-121 | with a digest and dumps that tell apart, two corpora have one identity exactly when they normalise to the same documents |
| RunCache.FreezeInjective | src/autobrain/performance.py:128-140 | on values of one schema freezing with sorted keys loses nothing |
| RunCache.DocumentTyped | src/autobrain/models.py:168-183 | every document's dump has the document schema |
| RunCache.ToJsonInjective | src/autobrain/models.py:168-183 | the dump shows every field |
| RunCache.FrozenDocuments | src/autobrain/performance.py:128-130 | documents with one key are the same document |
| RunCache.FrozenLists | src/autobrain/performance.py:50-50 | so are lists of documents with one key, element by element |
| RunCache.EmptyValuesCollide | src/autobrain/performance.py:131-139 | across schemas freezing does collide: `{}` with `[]`, although their JSON differs |
| RunCache.TrueCollidesWithOne | src/autobrain/performance.py:140-140 | and `True` with `1` |
| RunCache.MemoExact | src/autobrain/performance.py:60-76 | all answers of a run of lookups equal the uncached function exactly when lookups that share a key agree |
| RunCache.TypedRunsAgree | src/autobrain/performance.py:60-76 | any run of lookups on values of one schema answers as if nothing were cached |
| RunCache.MixedRunGoesWrong | src/autobrain/performance.py:60-76 | a run that mixes `{}` and `[]` gets a wrong answer |
| RunCache.Cache.constructor | src/autobrain/performance.py:31-43 | all tables start empty; an empty cache is valid and serves every schema |
| RunCache.Cache.NormalizedDocuments | src/autobrain/performance.py:45-58 | in every valid state the answer is the uncached normalisation, validity is kept, and exactly one counter goes up; what is computed is stored, and a hit is counted exactly when it was stored before |
| RunCache.Cache.Serialize | src/autobrain/performance.py:60-76 | the two tables are independent, each remembers the first answer per key; one call is one step of the runs below; on the schema a table serves the answer is the canonical JSON |
| RunCache.Cache.HashBytes | src/autobrain/performance.py:78-87 | what is stored under the bytes' key, which is their digest as long as no value that freezes to such a key was hashed before; answers on every schema stay right |
| RunCache.Cache.HashJson | src/autobrain/performance.py:89-98 | on the schema the cache serves, always the digest of the canonical JSON; in general the first one stored under the key; answers for bytes stay right unless the value is a pair that freezes to their key |
| RunCache.PairFrozen | src/autobrain/performance.py:79-79 | exactly one value freezes to the key of some bytes: the list of `"bytes"` and them |
| RunCache.HashRunExact | src/autobrain/performance.py:60-98 | all answers of a run of texts, byte hashes and value hashes on a new cache are right exactly when every value agrees with the first one that has its key, in text where its text is asked for and in hash where its hash is, and no bytes meet the pair that freezes to their key with another hash |
| RunCache.AnswerIs | src/autobrain/performance.py:60-98 | what each call answers, right or not: the text of the first value with the key, its hash, or the hash of bytes with that key |
| RunCache.TextFeedsHash | src/autobrain/performance.py:89-98 | `{}` serialised and then `[]` hashed: the answer is the hash of `{}` |
| RunCache.TypedHashesAgree | src/autobrain/performance.py:60-98 | so runs over bytes and values of one schema always get the right texts and hashes |
| RunCache.BytesCollideWithPair | src/autobrain/performance.py:78-98 | a pair hashed first gives later bytes its own hash, and the other way round |
| RunCache.Cache.AnswerTokens | src/autobrain/performance.py:100-108 | the first tokens stored for that answer, whatever the tokenizer |
| RunCache.Cache.SourceIndex | src/autobrain/performance.py:110-120 | the first index stored for those ids, whatever the documents |
| RunCache.SourceIndexExact | src/autobrain/performance.py:110-120 | the index is right over a run exactly when lookups with the same ids agree on the documents behind them |
| RunCache.EditedDocumentIsStale | src/autobrain/performance.py:110-120 | a document edited under its id: the cache still answers the old one |
| RunCache.AnswerTokensExact | src/autobrain/performance.py:100-108 | tokens are right over a run exactly when nobody looks one answer up with tokenizers that differ on it |
| RunCache.OriginNamed | src/autobrain/models.py:168-183 | in a document's dump the origin fields stand under their own names |
| RunCache.TextsNamed | src/autobrain/models.py:168-183 | and the texts |
| RunCache.OthersNamed | src/autobrain/models.py:168-183 | and dates, container and authors |
| RunCache.ListsNamed | src/autobrain/models.py:168-183 | and the lists and dictionaries |
| RunCache.CompactAndSorted | src/autobrain/performance.py:123-125 | canonical JSON has its keys in order and no blanks, on one value of each kind |
| RunCache.IndexTells | src/autobrain/performance.py:118-118 | of documents with one id the index has the last |
| RunCache.IndexHas | src/autobrain/performance.py:118-118 | and it has exactly the ids of the documents |
| LeakageCache.CachedScanExact | src/autobrain/benchmark.py:471-488 | whatever the cache holds when the scan begins: it is clean exactly when neither a stored text of one of its values nor the first text of a new key leaks |
| LeakageCache.ScanSerialized | src/autobrain/benchmark.py:471-488 | the scan through a cache that somebody may have used before computes that verdict and leaves the table it says |
| LeakageCache.FalseAlarmIff | src/autobrain/benchmark.py:471-488 | a false alarm is raised exactly when nothing leaks but a text from before the scan that stands for one of the values |
| LeakageCache.MissedLeakIff | src/autobrain/benchmark.py:471-488 | a leak is missed exactly when every value that leaks is read as a text from before or that of an earlier value, and none of the stored ones leaks |
| LeakageCache.TypedScanUnchanged | src/autobrain/benchmark.py:471-488 | on values of one schema, with nothing stored before, the verdict is that without a cache |
| LeakageCache.EmptyArgumentsScan | src/autobrain/benchmark.py:490-496 | metadata, no arguments, no environment, on a cache without texts: a leak is missed exactly when neither the metadata nor `[]` leaks and `{}` does |
| LeakageCache.OnlyBracesAreMissed | src/autobrain/benchmark.py:668-679 | metadata has braces of its own, so what a build's scan misses is only ever a token that folds to `{}` |
| LeakageCache.NothingGivenScan | src/autobrain/benchmark.py:490-496 | called without metadata too, the scan reads all three as `{}` |
| LeakageCache.EarlierScanAlarms | src/autobrain/benchmark.py:490-496 | after a scan of empty arguments, a later scan with arguments and no environment flags what is forbidden in `[]`, which none of its values need have |
| Orchestration.TakeTurn | src/autobrain/orchestration.py:1431-1517 | one turn with the loop's three account variables follows the rule that decides, from the results so far, who may start and how a run is marked |
| Orchestration.RunOrchestrator.RunCandidates | src/autobrain/orchestration.py:1416-1520 | each result follows that rule; CANCELLED comes only last, and without it every candidate has one outcome, all of them in the ledger, unless an error that nothing catches killed a started candidate's run |
| Orchestration.NobodyRunsOverBudget | src/autobrain/orchestration.py:1431-1452 | after the first BUDGET_EXCEEDED outcome no candidate starts |
| Orchestration.SpendStaysUnderCap | src/autobrain/orchestration.py:1431-1517 | every start finds spend plus estimate below the cap, so the total is untouched or stays below the cap less the estimate plus the cost of the last candidate that was charged |
| Orchestration.NobodyExceededIff | src/autobrain/orchestration.py:1431-1501 | no outcome says BUDGET_EXCEEDED exactly when every candidate whose turn was not cancelled found room for its estimate, left the account within the cap, and did not report itself over it |
| Orchestration.RunOrchestrator.CleanupCandidates | src/autobrain/orchestration.py:2188-2229 | cleans up the first candidate of each id once, in order, whatever a cleanup raises; left early at any point, it has attempted exactly the candidates before that point and noted exactly their failures |
| Orchestration.RunOrchestrator.RunWorkflow | src/autobrain/orchestration.py:1259-1414 | the workflow's status follows from the candidates' outcomes, the output scan and what stops it where; its own cleanup is reached exactly when no outcome is CANCELLED and nothing leaks; a killed run leaves it by an exception with nobody cleaned up |
| Orchestration.RunOrchestrator.Run | src/autobrain/orchestration.py:915-982 | from wherever the workflow left its cleanup, `run` finishes exactly the rest, each id once; an exception leaves it exactly when a candidate's run was killed, a candidate left to it raises a fatal error, or an interrupt comes outside its cleanups, and then who was cleaned up is said; the final status is that of failed, then of interrupted cleanups, then the workflow's; a second use is refused |
| Orchestration.RunOrchestrator.FinishCleanup | src/autobrain/orchestration.py:920-974 | the last loop calls exactly the candidates not attempted yet, up to where it is left, and notes exactly their failures and interruptions |
| Orchestration.PositionsExact | src/autobrain/orchestration.py:922-925 | the candidates cleaned up are exactly the first of each id, in order, but for one that was marked and not called when an interrupt came |
| Orchestration.EscapesExact | src/autobrain/orchestration.py:922-965 | the last loop is left at the first candidate where an interrupt comes outside the cleanups or a cleanup left to it raises a fatal error |
| Orchestration.OkMeansAllWell | src/autobrain/orchestration.py:976-982 | a run that ends OK started every candidate, cancelled none, ended within the cap, leaked nothing, and cleaned every id up without an error |
| Orchestration.DistinctIdsAllCleaned | src/autobrain/orchestration.py:922-925 | with different ids and no such interrupt that is every candidate exactly once |
| Orchestration.RecordedAsItRan | src/autobrain/orchestration.py:1431-1501 | what each candidate is recorded as: an interrupt as CANCELLED and an error as FAILED, both without a cost; a returned outcome unchanged but for the over-budget mark; CANCELLED or BUDGET_EXCEEDED for one that was not started |
| Orchestration.InterruptEndsTheRun | src/autobrain/orchestration.py:1456-1458 | the first candidate that is interrupted or finds the cancellation is the last with a result, CANCELLED; no later one starts; past its gates the workflow ends neither OK nor with its own cleanup begun |
| Orchestration.CancelledIff | src/autobrain/orchestration.py:1431-1501 | a result is CANCELLED exactly for a cancellation at its turn, an interrupted run, or an outcome that says so within the cap |
| Orchestration.FinalStatusTells | src/autobrain/orchestration.py:976-982 | the final status, reason by reason: failed cleanups, then interrupted ones, then cancellation, leakage, budget, OK |
| Decision.EligibilityReasons | src/autobrain/decision.py:30-81 | every gate that blocks a candidate is reported and no other; none is reported exactly when it is eligible |
| Decision.KeyLeOrder | src/autobrain/decision.py:171-181 | the tie-break key, missing values last, is a total order in which only equal ids tie |
| Decision.Partition | src/autobrain/decision.py:114-131 | the eligible in order, the ineligible by id, each with exactly the reasons that block a candidate of that id |
| Decision.MinKey | src/autobrain/decision.py:171-181 | the first candidate of the band whose key is least |
| Decision.SelectWinner | src/autobrain/decision.py:84-202 | no recommendation exactly when nobody is eligible; otherwise an eligible candidate within epsilon of the best eligible quality and least in cost, p95, burden and id there; a negative epsilon fails exactly when somebody is eligible; every ineligible id comes with exactly the reasons against a candidate of that id |
| Decision.VerdictIgnoresOrderAndIneligible | src/autobrain/decision.py:132-181 | the verdict depends on neither order, repetitions nor ineligible entrants |
| Decision.NewcomerChangesLittle | src/autobrain/decision.py:158-181 | a newcomer takes the verdict, or pushes the old winner out of the band by raising the best quality, or changes nothing |
| Decision.BoundsAreEnough | src/autobrain/decision.py:30-81 | the gates open at their bounds: twenty cases, nine in ten answered, the floor, half the support; anything less closes them |
| Decision.SmallerIsPreferred | src/autobrain/decision.py:171-181 | a lower cost is preferred whatever the rest is, then p95, then burden, then the id; a missing value loses against any |
| Evaluation.RoundStaysBetween | src/autobrain/evaluate.py:74-95 | rounding to four places keeps values between whole bounds |
| Evaluation.CaseScoreBounds | src/autobrain/evaluate.py:44-118 | scores and recalls lie in [0, 100], cited claims never exceed the required ones, and reported recall is within 0.00005 of the share of gold sources cited |
| Evaluation.QuantileMonotone | src/autobrain/evaluate.py:36-41 | a higher percentile is never lower, and stays between the extremes |
| Evaluation.PercentilesAreOrdered | src/autobrain/evaluate.py:36-41 | p50 is at most p95, there is none exactly without latencies, and arrival order does not matter |
| Evaluation.EvaluateCandidate | src/autobrain/evaluate.py:121-211 | the one-pass loop computes the aggregate of all cases; it raises exactly when a confidence, latency or citation is malformed, a total cost is missing from a complete cost or given with an incomplete one, or the account has a negative or malformed entry |
| Evaluation.AggregateInRange | src/autobrain/models.py:548-572 | every aggregate lies in the ranges its contract demands, and p50 is positive and at most p95 |
| Evaluation.QualityIsSupport | src/autobrain/evaluate.py:178-191 | with retrieval-only scoring the quality floor implies the source-support gate |
| Evaluation.NoFailureMeansFullSuccess | src/autobrain/evaluate.py:192-210 | no partial failure means full success, and conversely |
| Evaluation.AggregateIgnoresOrder | src/autobrain/evaluate.py:145-211 | the aggregate does not depend on the order of the cases |
| Evaluation.SourceIdTells | src/autobrain/models.py:19-26 | which ids of a kind are well formed, by their length and what is behind the colon |
| Evaluation.AnswerScoreTells | src/autobrain/evaluate.py:86-102 | the score is 45 for coverage, 25 for cited support, 20 without a contradiction and 10 for style, within 0.00015; a contradiction costs exactly 20 points and style is worth exactly 10 |
| Evaluation.MoreNeverHurts | src/autobrain/evaluate.py:86-102 | more coverage, support or confidence never lowers a score |
| Evaluation.CaseTells | src/autobrain/evaluate.py:74-118 | an answered case counts the claims all of whose tokens the answer has, the forbidden ones so too, and cited claims exactly when some gold source is cited |
| Evaluation.ForbiddenClaimCosts | src/autobrain/evaluate.py:86-102 | with a forbidden claim in it an answer scores exactly 20 points less than without |
| Evaluation.UnansweredTells | src/autobrain/evaluate.py:68-73 | an unanswered case scores nothing and still requires all its claims; retrieval-only scoring looks at no claims |
| Evaluation.RecallTells | src/autobrain/evaluate.py:64-67 | recall is the share of distinct gold sources that are cited |
| Evaluation.PercentileTells | src/autobrain/evaluate.py:36-41 | a percentile is the one latency there is, or lies between two neighbours in sorted order exactly as far along as the cut |
| Evaluation.AggregateTells | src/autobrain/evaluate.py:165-210 | the aggregate, said of the cases: means, shares and counts of what each reports |
| Evaluation.InconsistentIff | src/autobrain/models.py:548-572 | what makes an account inconsistent, one thing at a time |
| TerminalText.NormalizeText | src/autobrain/terminal_text.py:74-85 | the loop computes the normalised text: tabs widened, line ends blanked, controls replaced |
| TerminalText.TerminalClusters | src/autobrain/terminal_text.py:31-46 | the loop with its pending cluster computes the clusters the lemmas below are about |
| TerminalText.ClustersJoin | src/autobrain/terminal_text.py:31-46 | the clusters put together are the text |
| TerminalText.PrefixClusters | src/autobrain/terminal_text.py:31-46 | whole clusters from the front cluster the same way on their own |
| TerminalText.EllipsisAddsOne | src/autobrain/terminal_text.py:49-71 | the ellipsis adds at most one column and one cluster, and joins the last cluster exactly when that ends in a zero-width joiner |
| TerminalText.KeepClusters | src/autobrain/terminal_text.py:15-22 | the loop keeps the clusters up to the first that no longer fits |
| TerminalText.TruncateTerminalText | src/autobrain/terminal_text.py:8-23 | the truncated text the three lemmas below are about |
| TerminalText.NeverTooWide | src/autobrain/terminal_text.py:8-23 | never wider than any requested width of at least zero |
| TerminalText.KeepsLongestPrefix | src/autobrain/terminal_text.py:8-23 | text is left alone exactly when it fits; otherwise the longest run of whole clusters that leaves room for the ellipsis is kept, and at width one only the ellipsis, at zero nothing |
| TerminalText.TruncateTwice | src/autobrain/terminal_text.py:8-23 | truncating again changes nothing |
| TerminalText.EachCharacterAlone | src/autobrain/terminal_text.py:74-85 | a tab becomes four blanks, a line end one, another control a question mark, and every other character itself, wherever it stands |
| TerminalText.ClustersExact | src/autobrain/terminal_text.py:31-46 | no cluster is empty or can be split, and neighbours must be: with the join this leaves no other clusters |
| TerminalText.WidthTells | src/autobrain/terminal_text.py:49-71 | a cluster is as wide as its characters with a width, wide ones counted twice, and at least two with an emoji style or keycap |
| TerminalText.NothingIsLeft | src/autobrain/terminal_text.py:12-13 | a width of zero or less leaves nothing, but for a text without any width at zero |
| UiState.HandlesInjective | src/autobrain/tui_state.py:253-255 | different sequence numbers give different handles |
| UiProofs.ToggleFlips | src/autobrain/tui_state.py:145-156 | toggling flips one membership, keeps the others, and never repeats an item |
| UiProofs.StepKeepsInvariant | src/autobrain/tui_state.py:258-493 | every action keeps the invariant: a plan fits the selection, the provider and the connections, and no selection repeats an item |
| UiProofs.ReachablePlansFit | src/autobrain/tui_runtime.py:138-170 | in every reachable state a present plan matches selection and provider, its sources are connected, the subscription is ready, and there are two different candidates at least |
| UiProofs.RunEffectsAreRunnable | src/autobrain/tui_state.py:366-395 | only starting a run emits a run effect, and it carries such a plan for the effect's own provider |
| UiProofs.SemanticSwitchKeepsPlan | src/autobrain/tui_state.py:275-287 | switching to semantic mode keeps an old plan, which can still be started although the readiness is reset |
| UiProofs.UnvalidatedRunIsReachable | src/autobrain/tui_state.py:275-287 | from the initial state, one snapshot and one switch lead to a run that starts while the readiness is unvalidated; it carries the plan's own quick-start configuration, which needs no validation |
| UiProofs.ExposedStep | src/autobrain/tui_state.py:258-493 | one action leads to a plan beside an unvalidated GBrain exactly when it is the switch or a failed validation with a plan present, or it was so before and the action replaces neither plan nor readiness |
| UiProofs.ExposedExactly | src/autobrain/tui_state.py:258-493 | over all runs of the reducer: that is so exactly when some switch or failed validation came with a plan present and nothing replaced plan or readiness since |
| UiProofs.PlansCarryValidated | src/autobrain/tui_state.py:300-320 | in every reachable state the configuration, and that of a plan, is quick start or was brought by a validation that succeeded |
| UiProofs.RunsCarryValidated | src/autobrain/tui_runtime.py:173-215 | so does every run that is started, whatever the readiness says then |
| UiProofs.AssertionHoldsWithoutReset | src/autobrain/tui_state.py:416-423 | the reducer's assertion holds along all actions that never reset a running run |
| UiProofs.ResetThenCancelBreaks | src/autobrain/tui_state.py:477-491 | resetting and then cancelling breaks it exactly when a run was going on and not yet cancelling |
| UiProofs.BrokenAssertionIsReachable | src/autobrain/tui_state.py:416-423 | from the initial state, four actions break the assertion |
| UiProofs.EffectRegistry.RegisterRun | src/autobrain/tui_effects.py:97-102 | fails exactly on a handle already registered, and adds that one handle |
| UiProofs.EffectRegistry.SettleRun | src/autobrain/tui_effects.py:115-117 | takes out that one handle and says whether it was there |
| UiProofs.EffectRegistry.RegisterLogin | src/autobrain/tui_effects.py:119-126 | the same for logins |
| UiProofs.EffectRegistry.SettleLogin | src/autobrain/tui_effects.py:128-129 | the same for logins |
| UiProofs.EffectsIssueFreshHandles | src/autobrain/tui_state.py:253-255 | an action issues at most one handle, never one issued before |
| UiProofs.DuplicateHandleUnreachable | src/autobrain/tui_effects.py:97-130 | however actions, submissions and settlements interleave, the registry never meets a handle twice |
| UiShows.ResolvedIff | src/autobrain/tui_state.py:221-240 | there is a plan exactly when sources are selected and connected, two candidates are, the subscription is ready and GBrain is validated |
| UiShows.FirstFailureShows | src/autobrain/tui_runtime.py:138-170 | otherwise the first of these that fails is shown |
| UiShows.NamesShown | src/autobrain/experiment.py:51-99 | the names that plans and errors carry |
| UiShows.FirstScreen | src/autobrain/tui_state.py:78-107 | what the UI opens with |
| UiShows.EffectsExactly | src/autobrain/tui_state.py:258-493 | an action asks the host for one effect at most, and for each of the seven exactly when it should, for the handle, provider, plan or path it should |
| UiShows.CancelIff | src/autobrain/tui_state.py:416-435 | a run is told to stop exactly by a cancel that finds it running and not yet cancelling, or by quitting while it runs; it is the active run, and the state says so |
| UiShows.CancelStopsTheLastRun | src/autobrain/tui_state.py:366-435 | over all actions that never reset a running run: what a cancel stops is the run that was started last |
| UiShows.TouchesOnly | src/autobrain/tui_state.py:258-493 | which fields of the state each of the 23 actions may change; it changes no other |
| UiShows.ModeShows | src/autobrain/tui_state.py:275-287 | semantic mode opens its screen, unvalidated, and keeps the plan; quick start leads to the review |
| UiShows.ValidationShows | src/autobrain/tui_state.py:288-320 | refused settings, a validation that succeeds and one that fails: what each shows and keeps |
| UiShows.ConnectionsShow | src/autobrain/tui_state.py:321-365 | another provider leaves no plan until its connections are loaded; then there is one exactly when everything is ready |
| UiShows.SkipShows | src/autobrain/tui_state.py:331-332 | skipping a source takes out that one and goes on |
| UiShows.ToggleShows | src/autobrain/tui_state.py:329-334 | toggling changes one membership and nothing else but the plan |
| UiShows.OutcomesShow | src/autobrain/tui_state.py:436-444 | the last outcome that names a candidate decides what is shown for it |
| UiShows.CompletedRunShows | src/autobrain/tui_state.py:436-458 | a completed run is over, shows its own result and opens its own report |
| UiShows.FailedRunShows | src/autobrain/tui_state.py:459-472 | a failed run is over and shows why |
| UiShows.StageShows | src/autobrain/tui_state.py:396-415 | a stage shows the whole seconds since the start and marks the candidates it names; messages for other handles change nothing |
| UiShows.LoginSettles | src/autobrain/tui_state.py:337-354 | a login has a fresh handle; settling that one loads the connections or shows the error, any other is ignored |
| UiShows.BackUndoesAdvance | src/autobrain/tui_state.py:118-135 | going back undoes going on, from every setup screen but the last |
| UiShows.SetupOrder | src/autobrain/tui_state.py:68-74 | the order of the setup screens |
| UiShows.BeginShows | src/autobrain/tui_state.py:260-263 | a setup begun from home goes back there, one that opened the UI has nowhere to go back to |
| UiShows.BackShows | src/autobrain/tui_state.py:264-274 | from GBrain back to the candidates with quick start, from other screens home |
| UiShows.StartShows | src/autobrain/tui_state.py:366-395 | a run that starts is shown running with every selected candidate pending and nothing of an earlier run; without a plan only the reason is shown |
| UiShows.ResetShows | src/autobrain/tui_state.py:477-491 | a reset shows nothing of the run any more and touches nothing a plan is about |

## Left out

- FormulaVerdict.GenerateFormula: rendering and the final verification only; the release source, tree digest, pin and version checks before it, and the variant for prepared manifests, are not part of this model.
- FormulaManifest.LoadManifestResources: the resources, build and platform-wheel checks; the header is loaded by LoadManifest beside it, on typed fields, and the shape of an absolute HTTPS URL is a parameter of both.
- Formula.ParseFormula: errors carry the resource they blame but no line number.
- Corpus.EachResultIsTheUnion: for comma-free, non-empty URLs, because the URL list is a comma-joined string that is split again.
- Corpus.IdempotentIff: for inputs that the boundary check accepts in both passes; the check reads the merged document, so a later pass may refuse what an earlier one took.
- Corpus.NormalizeIgnoresOrder: for distinct source ids; documents that share an id keep their relative order.
- BenchmarkBuild.BuildBenchmark: for distinct thread roots; it does not claim that the source of a generated case survives in the candidate corpus, because the code does not ensure it.
- BenchmarkBuild.ScanLeakage: texts only; walking workspaces and unreadable files are input, and locations keep no index.
- Reconciliation.TotalIffComplete: the rounding of the total to ten places is a parameter.
- ExperimentJob.ExperimentJobBoundary.Cancel: the call to the runner's own `cancel` after the lock, and callbacks that a token runs while the lock is held, are not modelled; `wait`, `rerun` and `compare` add no state of their own.
- Orchestration.RunOrchestrator.Run: the steps before the candidates are reduced to the gate that closes, if one does, and those after the cleanup to what stops them, if anything does; a BaseException that nothing catches, raised by one of those steps, leaves `run` as a killed candidate does and is not modelled.
- Evaluation.EvaluateCandidate: case tuples are complete, and a native result is not attached.
- FormulaHeader.HeaderReadsBack: for header URLs without line breaks; with one, the pieces of the line are read instead, and `VerdictExact` says what that can change.
- BenchmarkMining.KeyTells: for topics without a NUL; the key joins topic and channel with one.
- RunCache.Cache.Serialize: the diagnostic counters are kept as two sums, computed and found; two counters of different tables are not told apart.
- RunCache.CompactAndSorted: one value with each kind of part; separators and key order in general follow from the definition of the canonical form.
- Corpus.IdentityTellsCorporaApart: the digest and the dump are parameters, and are required to tell texts and documents apart.
- Floating point: sums and quotients are exact reals; only `round(x, 4)` rounds.
- Text from Unicode tables, `casefold` and SHA-256: parameters, with no law assumed beyond the one a `requires` names.
- The question, social, secret, prompt and oracle patterns, thread rejection reasons and claim extraction: parameters.
- JSON, TOML, pydantic validation and dependency markers: the model starts from typed values, with "edge enabled" as a flag of a dependency.
- The file name of an archive URL (splitting, unquoting, last path component): a parameter; classification starts at the name.
- Error messages and redaction: errors are codes, with the detail the code itself computes from.
- Files, HTTP servers, sockets, subprocesses, signal deadlines, clocks, latency spans: not part of this model; a timeout is one of the answers a provider can give.
- Writing a frozen corpus, benchmark artifacts and manifests; reading raw connector records; the static benchmark builder the workflow no longer uses: not part of this model.
- Connectors, provider clients, candidate adapters, screens, preflight, commands and the web front end: thin layers over the above.
