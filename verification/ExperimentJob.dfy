/** `ExperimentJobBoundary`: a lock-protected registry of jobs. Every function named `...Section`
    is what one critical section does to one job; `Next` interleaves them freely. */
module ExperimentJob {
  import opened ExperimentContracts
  import opened Options

  datatype Request = Request(id: string, body: string)

  /** `status` is a free string in the source, because result loaders choose it. */
  datatype JobResult = JobResult(status: string, runId: Option<string>, projection: Option<nat>, error: Option<string>)

  const CANCELLED_RESULT := JobResult("CANCELLED", None, None, None)

  function StatusName(status: Status): string {
    match status
    case CREATED => "CREATED"
    case VALIDATING => "VALIDATING"
    case READY => "READY"
    case RUNNING => "RUNNING"
    case SUCCEEDED => "SUCCEEDED"
    case FAILED => "FAILED"
    case CANCELLED => "CANCELLED"
  }

  /** A status is told by its name, and each name is the source's own. */
  lemma NamesTell(a: Status, b: Status)
    ensures StatusName(a) == StatusName(b) ==> a == b
    ensures StatusName(CREATED) == "CREATED" && StatusName(VALIDATING) == "VALIDATING" && StatusName(READY) == "READY"
    ensures StatusName(RUNNING) == "RUNNING" && StatusName(SUCCEEDED) == "SUCCEEDED" && StatusName(FAILED) == "FAILED"
    ensures StatusName(CANCELLED) == "CANCELLED" == CANCELLED_RESULT.status
  {
    assert "CREATED"[1] == 'R' && "CANCELLED"[1] == 'A' && "READY"[1] == 'E' && "RUNNING"[1] == 'U';
    if StatusName(a) == StatusName(b) {
      assert StatusName(a)[0] == StatusName(b)[0] && StatusName(a)[1] == StatusName(b)[1];
    }
  }

  /** One job's fields. `flag` is its cancellation signal, `run` the runner object it was given. */
  datatype Job = Job(
    request: Request,
    status: Status,
    flag: bool,
    run: Option<nat>,
    result: Option<JobResult>,
    events: seq<string>,
    hasThread: bool)

  datatype Response =
    | Lifecycle(status: Status)
    | CallFactory
    | Answer(result: JobResult)
    | Raises(code: ErrorCode)

  function NewJob(request: Request): Job {
    Job(request, CREATED, false, None, None, [], false)
  }

  // ----- critical sections -----

  function CreateSection(jobs: map<string, Job>, maxJobs: nat, request: Request): (r: (map<string, Job>, Response)) {
    if request.id in jobs then
      if jobs[request.id].request == request then (jobs, Lifecycle(jobs[request.id].status))
      else (jobs, Raises(INVALID_REQUEST))
    else if |jobs| >= maxJobs then (jobs, Raises(INVALID_REQUEST))
    else (jobs[request.id := NewJob(request)], Lifecycle(CREATED))
  }

  function ValidateBeginSection(job: Job): (r: (Job, Response)) {
    if job.status != CREATED then (job, Lifecycle(job.status))
    else (job.(status := VALIDATING), CallFactory)
  }

  datatype FactoryOutcome = Built(run: nat) | FactoryRaised(detail: string)

  function ValidateFinishSection(job: Job, outcome: FactoryOutcome): (r: (Job, Response)) {
    match outcome
    case FactoryRaised(detail) =>
      (match Transition(job.status, FAILED)
       case Ok(s) => (job.(status := s, result := Some(JobResult("FAILED", None, None, Some(detail)))), Lifecycle(s))
       case Err(code) => (job, Raises(code)))
    case Built(run) =>
      var stored := job.(run := Some(run));
      (match Transition(job.status, if job.flag then CANCELLED else READY)
       case Ok(s) => (stored.(status := s), Lifecycle(s))
       case Err(code) => (stored, Raises(code)))
  }

  function StartSection(job: Job): (r: (Job, Response)) {
    if job.status == CREATED then (job, Raises(NOT_READY))
    else if job.status == RUNNING then (job, Lifecycle(RUNNING))
    else if job.status != READY then (job, Raises(INVALID_TRANSITION))
    else if job.run.None? then (job, Raises(NOT_READY))
    else (job.(status := RUNNING, hasThread := true), Lifecycle(RUNNING))
  }

  function CancelSection(job: Job): (r: (Job, Response)) {
    if Terminal(job.status) then (job, Lifecycle(job.status))
    else (job.(flag := true, status := CANCELLED), Lifecycle(CANCELLED))
  }

  function ResultSection(job: Job): (r: Response) {
    if job.result.Some? then Answer(job.result.value)
    else if !Terminal(job.status) then Raises(NOT_READY)
    else Answer(JobResult(StatusName(job.status), None, None, None))
  }

  /** What `run.run()` and the result loader did: they returned, the runner noticed a cancellation,
      or another Exception was raised (a missing run id included). */
  datatype RunOutcome =
    | Finished(loaded: JobResult, runFailed: bool)
    | RunCancelled
    | RunRaised(detail: string)

  datatype SettleExit = Done | Handler(detail: string) | Crash

  /** The executor's section inside `try`. An error raised here goes to the handler below. */
  function SettleSection(job: Job, loaded: JobResult, runFailed: bool): (r: (Job, SettleExit)) {
    if job.flag || job.status == CANCELLED then
      if job.status == CANCELLED then (job.(result := Some(CANCELLED_RESULT)), Done)
      else
        match Transition(job.status, CANCELLED)
        case Ok(s) => (job.(status := s, result := Some(CANCELLED_RESULT)), Done)
        case Err(_) => (job, Handler("INVALID_TRANSITION"))
    else
      var stored := job.(result := Some(loaded));
      match Transition(job.status, if loaded.status == "FAILED" || runFailed then FAILED else SUCCEEDED)
      case Ok(s) => (stored.(status := s), Done)
      case Err(_) => (stored, Handler("INVALID_TRANSITION"))
  }

  function CancelledHandlerSection(job: Job): (r: (Job, SettleExit)) {
    if job.status == CANCELLED then (job.(result := Some(CANCELLED_RESULT)), Done)
    else
      match Transition(job.status, CANCELLED)
      case Ok(s) => (job.(status := s, result := Some(CANCELLED_RESULT)), Done)
      case Err(_) => (job, Crash)
  }

  function ErrorHandlerSection(job: Job, detail: string): (r: (Job, SettleExit)) {
    var target := if job.flag then CANCELLED else FAILED;
    var result := JobResult(StatusName(target), None, None, if target == CANCELLED then None else Some(detail));
    if job.status == CANCELLED then (job.(result := Some(result)), Done)
    else
      match Transition(job.status, target)
      case Ok(s) => (job.(status := s, result := Some(result)), Done)
      case Err(_) => (job, Crash)
  }

  lemma SameSize<K, V, W>(a: map<K, V>, b: map<K, W>)
    requires a.Keys == b.Keys
    ensures |a| == |b|
  {
    assert |a| == |a.Keys| && |b| == |b.Keys|;
  }

  lemma SizeWithNewKey<K, V>(m: map<K, V>, k: K, v: V)
    ensures |m[k := v]| == if k in m then |m| else |m| + 1
  {
    assert m[k := v].Keys == m.Keys + {k};
    if k in m { SameSize(m[k := v], m); } else { assert |m[k := v].Keys| == |m.Keys| + 1; }
  }

  // ----- the registry as objects -----

  class JobRecord {
    const request: Request
    var status: Status
    var flag: bool
    var run: Option<nat>
    var result: Option<JobResult>
    var events: seq<string>
    var hasThread: bool

    function View(): (job: Job)
      reads this
    {
      Job(request, status, flag, run, result, events, hasThread)
    }

    constructor (request: Request)
      ensures View() == NewJob(request)
    {
      this.request := request;
      status, flag, run, result, events, hasThread := CREATED, false, None, None, [], false;
    }
  }

  class ExperimentJobBoundary {
    const maxJobs: nat
    var jobs: map<string, JobRecord>

    /** No two ids share a record. */
    ghost predicate Valid()
      reads this
    {
      forall a, b :: a in jobs && b in jobs && a != b ==> jobs[a] != jobs[b]
    }

    function Views(): (m: map<string, Job>)
      reads this, jobs.Values
    {
      map id | id in jobs :: jobs[id].View()
    }

    constructor (maxJobs: nat)
      requires maxJobs >= 1
      ensures Valid() && Views() == map[] && this.maxJobs == maxJobs
    {
      this.maxJobs, jobs := maxJobs, map[];
    }

    method Create(request: Request) returns (r: Response)
      requires Valid()
      modifies this
      ensures Valid() && (Views(), r) == CreateSection(old(Views()), maxJobs, request)
      ensures forall id :: id in old(jobs) ==> id in jobs && jobs[id] == old(jobs)[id]
    {
      SameSize(jobs, Views());
      if request.id in jobs {
        var existing := jobs[request.id];
        if existing.request == request { return Lifecycle(existing.status); }
        return Raises(INVALID_REQUEST);
      }
      if |jobs| >= maxJobs { return Raises(INVALID_REQUEST); }
      var job := new JobRecord(request);
      jobs := jobs[request.id := job];
      r := Lifecycle(CREATED);
      assert Views() == old(Views())[request.id := NewJob(request)];
    }

    method ValidateBegin(id: string) returns (r: Response)
      requires Valid()
      modifies jobs.Values
      ensures Valid() && jobs == old(jobs)
      ensures id !in jobs ==> r == Raises(NOT_FOUND) && Views() == old(Views())
      ensures id in jobs ==>
        var (job, response) := ValidateBeginSection(old(Views())[id]);
        Views() == old(Views())[id := job] && r == response
    {
      if id !in jobs { return Raises(NOT_FOUND); }
      var job := jobs[id];
      if job.status != CREATED { return Lifecycle(job.status); }
      job.status := VALIDATING;
      r := CallFactory;
    }

    method ValidateFinish(id: string, outcome: FactoryOutcome) returns (r: Response)
      requires Valid() && id in jobs
      modifies jobs.Values
      ensures Valid() && jobs == old(jobs)
      ensures var (job, response) := ValidateFinishSection(old(Views())[id], outcome);
        Views() == old(Views())[id := job] && r == response
    {
      hide Transition;
      var job := jobs[id];
      match outcome {
        case FactoryRaised(detail) =>
          match Transition(job.status, FAILED) {
            case Ok(s) =>
              job.status := s;
              job.result := Some(JobResult("FAILED", None, None, Some(detail)));
              r := Lifecycle(s);
            case Err(code) => r := Raises(code);
          }
        case Built(run) =>
          job.run := Some(run);
          match Transition(job.status, if job.flag then CANCELLED else READY) {
            case Ok(s) =>
              job.status := s;
              r := Lifecycle(s);
            case Err(code) => r := Raises(code);
          }
      }
    }

    method Start(id: string) returns (r: Response)
      requires Valid()
      modifies jobs.Values
      ensures Valid() && jobs == old(jobs)
      ensures id !in jobs ==> r == Raises(NOT_FOUND) && Views() == old(Views())
      ensures id in jobs ==>
        var (job, response) := StartSection(old(Views())[id]);
        Views() == old(Views())[id := job] && r == response
    {
      if id !in jobs { return Raises(NOT_FOUND); }
      var job := jobs[id];
      if job.status == CREATED { return Raises(NOT_READY); }
      if job.status == RUNNING { return Lifecycle(RUNNING); }
      if job.status != READY { return Raises(INVALID_TRANSITION); }
      if job.run.None? { return Raises(NOT_READY); }
      job.status := RUNNING;
      job.hasThread := true;
      r := Lifecycle(RUNNING);
    }

    method Cancel(id: string) returns (r: Response)
      requires Valid()
      modifies jobs.Values
      ensures Valid() && jobs == old(jobs)
      ensures id !in jobs ==> r == Raises(NOT_FOUND) && Views() == old(Views())
      ensures id in jobs ==>
        var (job, response) := CancelSection(old(Views())[id]);
        Views() == old(Views())[id := job] && r == response
    {
      if id !in jobs { return Raises(NOT_FOUND); }
      var job := jobs[id];
      if Terminal(job.status) { return Lifecycle(job.status); }
      job.flag := true;
      job.status := CANCELLED;
      r := Lifecycle(CANCELLED);
    }

    method Result(id: string) returns (r: Response)
      requires Valid()
      ensures r == if id in jobs then ResultSection(Views()[id]) else Raises(NOT_FOUND)
    {
      if id !in jobs { return Raises(NOT_FOUND); }
      var job := jobs[id];
      if job.result.Some? { return Answer(job.result.value); }
      if !Terminal(job.status) { return Raises(NOT_READY); }
      r := Answer(JobResult(StatusName(job.status), None, None, None));
    }

    method Settle(id: string, loaded: JobResult, runFailed: bool) returns (exit: SettleExit)
      requires Valid() && id in jobs
      modifies jobs.Values
      ensures Valid() && jobs == old(jobs)
      ensures var (job, e) := SettleSection(old(Views())[id], loaded, runFailed);
        Views() == old(Views())[id := job] && exit == e
    {
      hide Transition;
      var job := jobs[id];
      exit := Done;
      if job.flag || job.status == CANCELLED {
        if job.status != CANCELLED {
          var t := Transition(job.status, CANCELLED);
          if t.Err? { return Handler("INVALID_TRANSITION"); }
          job.status := t.value;
        }
        job.result := Some(CANCELLED_RESULT);
        return;
      }
      job.result := Some(loaded);
      var t := Transition(job.status, if loaded.status == "FAILED" || runFailed then FAILED else SUCCEEDED);
      if t.Err? { return Handler("INVALID_TRANSITION"); }
      job.status := t.value;
    }

    method HandleCancelled(id: string) returns (exit: SettleExit)
      requires Valid() && id in jobs
      modifies jobs.Values
      ensures Valid() && jobs == old(jobs)
      ensures var (job, e) := CancelledHandlerSection(old(Views())[id]);
        Views() == old(Views())[id := job] && exit == e
    {
      hide Transition;
      var job := jobs[id];
      if job.status != CANCELLED {
        var t := Transition(job.status, CANCELLED);
        if t.Err? { return Crash; }
        job.status := t.value;
      }
      job.result := Some(CANCELLED_RESULT);
      exit := Done;
    }

    method HandleError(id: string, detail: string) returns (exit: SettleExit)
      requires Valid() && id in jobs
      modifies jobs.Values
      ensures Valid() && jobs == old(jobs)
      ensures var (job, e) := ErrorHandlerSection(old(Views())[id], detail);
        Views() == old(Views())[id := job] && exit == e
    {
      hide Transition;
      var job := jobs[id];
      var target := if job.flag then CANCELLED else FAILED;
      if job.status != CANCELLED {
        var t := Transition(job.status, target);
        if t.Err? { return Crash; }
        job.status := t.value;
      }
      job.result := Some(JobResult(StatusName(target), None, None, if target == CANCELLED then None else Some(detail)));
      exit := Done;
    }
  }

  // ----- every interleaving -----

  /** `Killed` is a thread whose runner raised a BaseException that is no Exception, such as SystemExit:
      no handler of the executor catches it. */
  datatype Thread = NoThread | Spawned | InRun | Handling(detail: string) | Exited | Crashed | Killed

  /** A job with the calls that are in the middle of something on it: `validating` when a `validate`
      call is between its two sections, `abandoned` when such an error has ended that call there, and
      `thread` where the executor thread is. */
  datatype Slot = Slot(job: Job, validating: bool, abandoned: bool, thread: Thread)

  datatype Op =
    | ValidateBegin
    | ValidateFinish(factory: FactoryOutcome)
    | AbandonValidate   // the factory raises a BaseException that is no Exception
    | Start
    | Cancel
    | CallRun
    | KillThread   // the runner does
    | Settle(outcome: RunOutcome)
    | Handle
    | Publish(event: string)
    | RaiseFlag   // the runner or the factory raises the signal it was handed

  function AfterExit(exit: SettleExit): Thread {
    match exit
    case Done => Exited
    case Handler(detail) => Handling(detail)
    case Crash => Crashed
  }

  // An operation that is not enabled leaves the slot unchanged.
  function SlotNext(s: Slot, op: Op): (s': Slot) {
    match op
    case ValidateBegin =>
      var (job, r) := ValidateBeginSection(s.job);
      s.(job := job, validating := s.validating || r.CallFactory?)
    case ValidateFinish(outcome) =>
      if s.validating then s.(job := ValidateFinishSection(s.job, outcome).0, validating := false) else s
    case AbandonValidate => if s.validating then s.(validating := false, abandoned := true) else s
    case Start =>
      var job := StartSection(s.job).0;
      s.(job := job, thread := if job != s.job then Spawned else s.thread)
    case Cancel => s.(job := CancelSection(s.job).0)
    case CallRun => if s.thread.Spawned? then s.(thread := InRun) else s
    case KillThread => if s.thread.InRun? then s.(thread := Killed) else s
    case Settle(outcome) =>
      if !s.thread.InRun? then s
      else
        var (job, exit) :=
          match outcome
          case Finished(loaded, runFailed) => SettleSection(s.job, loaded, runFailed)
          case RunCancelled => CancelledHandlerSection(s.job)
          case RunRaised(detail) => ErrorHandlerSection(s.job, detail);
        s.(job := job, thread := AfterExit(exit))
    case Handle =>
      if !s.thread.Handling? then s
      else
        var (job, exit) := ErrorHandlerSection(s.job, s.thread.detail);
        s.(job := job, thread := AfterExit(exit))
    case Publish(event) => s.(job := s.job.(events := s.job.events + [event]))
    case RaiseFlag => s.(job := s.job.(flag := true))
  }

  type System = map<string, Slot>

  datatype Step = Create(request: Request) | On(id: string, op: Op)

  function JobsOf(s: System): map<string, Job> {
    map id | id in s :: s[id].job
  }

  function Next(s: System, maxJobs: nat, step: Step): (s': System) {
    match step
    case Create(request) =>
      var jobs := CreateSection(JobsOf(s), maxJobs, request).0;
      if request.id in jobs && request.id !in s then s[request.id := Slot(jobs[request.id], false, false, NoThread)]
        else s
    case On(id, op) => if id in s then s[id := SlotNext(s[id], op)] else s
  }

  function Run(s: System, maxJobs: nat, steps: seq<Step>): (s': System)
    decreases |steps|
  {
    if steps == [] then s else Run(Next(s, maxJobs, steps[0]), maxJobs, steps[1..])
  }

  /** What a step makes happen outside the lock. */
  datatype Effect = FactoryCalled | ThreadStarted | RunCalled

  function Emits(s: System, step: Step, id: string, effect: Effect): (n: nat) {
    if step.Create? || step.id != id || id !in s then 0
    else
      match effect
      case FactoryCalled => if step.op.ValidateBegin? && ValidateBeginSection(s[id].job).1.CallFactory? then 1 else 0
      case ThreadStarted => if step.op.Start? && StartSection(s[id].job).0 != s[id].job then 1 else 0
      case RunCalled => if step.op.CallRun? && s[id].thread.Spawned? then 1 else 0
  }

  function Count(s: System, maxJobs: nat, steps: seq<Step>, id: string, effect: Effect): (n: nat)
    decreases |steps|
  {
    if steps == [] then 0
    else Emits(s, steps[0], id, effect) + Count(Next(s, maxJobs, steps[0]), maxJobs, steps[1..], id, effect)
  }

  // ----- the invariant -----

  ghost predicate SlotInvariant(s: Slot) {
    var j := s.job;
    && (s.validating || s.abandoned ==>
          j.status in {VALIDATING, CANCELLED} && j.run.None? && j.result.None? && s.thread.NoThread?)
    && !(s.validating && s.abandoned)
    && (j.status == CREATED ==> !s.validating && s.thread.NoThread? && j.run.None? && j.result.None?)
    && (j.status == VALIDATING ==> s.validating || s.abandoned)
    && (j.status == READY ==> j.run.Some? && j.result.None? && s.thread.NoThread?)
    && (j.status == RUNNING ==> s.thread in {Spawned, InRun, Killed})
    && (j.status == SUCCEEDED ==> j.result.Some? && j.result.value.status != "FAILED")
    && (j.status == FAILED ==> j.result.Some?)
    && (j.status == CANCELLED ==> j.result == None || j.result == Some(CANCELLED_RESULT))
    && (j.status == CANCELLED && !j.flag ==> j.result.Some?)
    && (s.thread in {Spawned, InRun, Killed} ==> j.status in {RUNNING, CANCELLED} && j.result.None?)
    && (s.thread.Exited? ==> Terminal(j.status) && j.result.Some?)
    && !s.thread.Handling? && !s.thread.Crashed?
    && (j.hasThread <==> !s.thread.NoThread?)
  }

  ghost predicate Invariant(s: System, maxJobs: nat) {
    && |s| <= maxJobs
    && forall id :: id in s ==> s[id].job.request.id == id && SlotInvariant(s[id])
  }

  lemma SlotStepKeepsInvariant(s: Slot, op: Op)
    requires SlotInvariant(s)
    ensures SlotInvariant(SlotNext(s, op)) && SlotNext(s, op).job.request == s.job.request
  {
  }

  lemma NewSlotFits(request: Request)
    ensures SlotInvariant(Slot(NewJob(request), false, false, NoThread)) && NewJob(request).request == request
  {
  }

  lemma StepKeepsInvariant(s: System, maxJobs: nat, step: Step)
    requires Invariant(s, maxJobs)
    ensures Invariant(Next(s, maxJobs, step), maxJobs)
  {
    hide SlotNext, SlotInvariant, NewJob;
    match step {
      case On(id, op) =>
        if id in s {
          SlotStepKeepsInvariant(s[id], op);
          SizeWithNewKey(s, id, SlotNext(s[id], op));
        }
      case Create(request) =>
        NewSlotFits(request);
        SameSize(JobsOf(s), s);
        SizeWithNewKey(s, request.id, Slot(NewJob(request), false, false, NoThread));
    }
  }

  lemma {:induction false} RunKeepsInvariant(s: System, maxJobs: nat, steps: seq<Step>)
    requires Invariant(s, maxJobs)
    ensures Invariant(Run(s, maxJobs, steps), maxJobs)
    decreases |steps|
  {
    if steps != [] {
      StepKeepsInvariant(s, maxJobs, steps[0]);
      RunKeepsInvariant(Next(s, maxJobs, steps[0]), maxJobs, steps[1..]);
    }
  }

  lemma Reachable(maxJobs: nat, steps: seq<Step>)
    ensures Invariant(Run(map[], maxJobs, steps), maxJobs)
  {
    RunKeepsInvariant(map[], maxJobs, steps);
  }

  lemma {:induction false} RunConcatenates(s: System, maxJobs: nat, a: seq<Step>, b: seq<Step>)
    ensures Run(s, maxJobs, a + b) == Run(Run(s, maxJobs, a), maxJobs, b)
    decreases |a|
  {
    if a == [] {
      assert a + b == b;
    } else {
      assert (a + b)[1..] == a[1..] + b && (a + b)[0] == a[0];
      RunConcatenates(Next(s, maxJobs, a[0]), maxJobs, a[1..], b);
    }
  }

  // ----- status histories -----

  /** The statuses a job has been in, in order, from its creation on. */
  function History(s: System, maxJobs: nat, steps: seq<Step>, id: string): (h: seq<Status>)
    decreases |steps|
  {
    if steps == [] then if id in s then [s[id].job.status] else []
    else
      var s' := Next(s, maxJobs, steps[0]);
      var rest := History(s', maxJobs, steps[1..], id);
      if id !in s || (id in s' && s'[id].job.status == s[id].job.status) then rest
      else [s[id].job.status] + rest
  }

  /** The request stays, and the status stays or moves on by the table. */
  predicate Follows(j: Job, j': Job) {
    j'.request == j.request && (j'.status == j.status || j'.status in Allowed(j.status))
  }

  lemma SettlingFollows(j: Job, loaded: JobResult, runFailed: bool, detail: string)
    ensures Follows(j, SettleSection(j, loaded, runFailed).0)
    ensures Follows(j, CancelledHandlerSection(j).0) && Follows(j, ErrorHandlerSection(j, detail).0)
  {
    hide Allowed, StatusName;
  }

  lemma OthersFollow(j: Job, outcome: FactoryOutcome)
    ensures Follows(j, ValidateFinishSection(j, outcome).0)
    ensures Follows(j, ValidateBeginSection(j).0) && Follows(j, StartSection(j).0) && Follows(j, CancelSection(j).0)
  {
  }

  lemma OpFollowsTable(s: Slot, op: Op)
    ensures var s' := SlotNext(s, op);
      && s'.job.request == s.job.request
      && (s'.job.status == s.job.status || s'.job.status in Allowed(s.job.status))
  {
    hide Allowed, ValidateBeginSection, ValidateFinishSection, StartSection, CancelSection, SettleSection,
      CancelledHandlerSection, ErrorHandlerSection;
    match op {
      case Settle(Finished(loaded, runFailed)) => SettlingFollows(s.job, loaded, runFailed, "");
      case Settle(RunRaised(detail)) => SettlingFollows(s.job, CANCELLED_RESULT, false, detail);
      case Handle =>
        if s.thread.Handling? { SettlingFollows(s.job, CANCELLED_RESULT, false, s.thread.detail); }
      case Settle(RunCancelled) => SettlingFollows(s.job, CANCELLED_RESULT, false, "");
      case ValidateFinish(outcome) => OthersFollow(s.job, outcome);
      case _ => OthersFollow(s.job, Built(0));
    }
  }

  lemma StepFollowsTable(s: System, maxJobs: nat, step: Step, id: string)
    requires id in s
    ensures var s' := Next(s, maxJobs, step);
      && id in s'
      && s'[id].job.request == s[id].job.request
      && (s'[id].job.status == s[id].job.status || s'[id].job.status in Allowed(s[id].job.status))
  {
    if step.On? && step.id in s { OpFollowsTable(s[step.id], step.op); }
  }

  lemma {:induction false} HistoryFromPresent(s: System, maxJobs: nat, steps: seq<Step>, id: string)
    requires id in s
    ensures var h := History(s, maxJobs, steps, id);
      && AllowedPath(h) && h != [] && h[0] == s[id].job.status
      && id in Run(s, maxJobs, steps) && h[|h| - 1] == Run(s, maxJobs, steps)[id].job.status
    decreases |steps|
  {
    hide Next, Allowed;
    if steps != [] {
      StepFollowsTable(s, maxJobs, steps[0], id);
      HistoryFromPresent(Next(s, maxJobs, steps[0]), maxJobs, steps[1..], id);
    }
  }

  lemma {:induction false} HistoryFromAbsent(s: System, maxJobs: nat, steps: seq<Step>, id: string)
    requires id !in s && id in Run(s, maxJobs, steps)
    ensures var h := History(s, maxJobs, steps, id);
      && AllowedPath(h) && h != [] && h[0] == CREATED
      && h[|h| - 1] == Run(s, maxJobs, steps)[id].job.status
    decreases |steps|
  {
    if steps != [] {
      var s' := Next(s, maxJobs, steps[0]);
      if id in s' {
        HistoryFromPresent(s', maxJobs, steps[1..], id);
      } else {
        HistoryFromAbsent(s', maxJobs, steps[1..], id);
      }
    }
  }

  /** Under every interleaving a job is created in CREATED and then walks an allowed path of the
      table, meeting each status at most once and at most five in all. */
  lemma HistoryIsAllowedPath(maxJobs: nat, steps: seq<Step>, id: string)
    requires id in Run(map[], maxJobs, steps)
    ensures var h := History(map[], maxJobs, steps, id);
      && AllowedPath(h) && 1 <= |h| <= 5 && h[0] == CREATED
      && h[|h| - 1] == Run(map[], maxJobs, steps)[id].job.status
      && (forall i :: 0 <= i < |h| - 1 ==> !Terminal(h[i]))
  {
    HistoryFromAbsent(map[], maxJobs, steps, id);
    PathsAreShort(History(map[], maxJobs, steps, id));
  }

  /** A terminal job keeps its status for good. */
  lemma TerminalAbsorbs(s: System, maxJobs: nat, steps: seq<Step>, id: string)
    requires id in s && Terminal(s[id].job.status)
    ensures id in Run(s, maxJobs, steps) && Run(s, maxJobs, steps)[id].job.status == s[id].job.status
  {
    HistoryFromPresent(s, maxJobs, steps, id);
    PathsAreShort(History(s, maxJobs, steps, id));
  }

  // ----- the factory, the thread and run() happen at most once -----

  function Remaining(s: System, id: string, effect: Effect): (n: nat) {
    if id !in s then 1
    else
      var stage := Stage(s[id].job.status);
      match effect
      case FactoryCalled => if stage == 0 then 1 else 0
      case ThreadStarted => if stage <= 2 then 1 else 0
      case RunCalled => if stage <= 2 || s[id].thread.Spawned? then 1 else 0
  }

  lemma SpendsFactory(s: System, maxJobs: nat, step: Step, id: string)
    requires Invariant(s, maxJobs)
    ensures Emits(s, step, id, FactoryCalled)
      + Remaining(Next(s, maxJobs, step), id, FactoryCalled) <= Remaining(s, id, FactoryCalled)
  {
    if id in s { StepFollowsTable(s, maxJobs, step, id); }
  }

  lemma SpendsThread(s: System, maxJobs: nat, step: Step, id: string)
    requires Invariant(s, maxJobs)
    ensures Emits(s, step, id, ThreadStarted)
      + Remaining(Next(s, maxJobs, step), id, ThreadStarted) <= Remaining(s, id, ThreadStarted)
  {
    if id in s { StepFollowsTable(s, maxJobs, step, id); }
  }

  // Only a start spawns a thread, and only the call to run ends that.
  lemma SpawnedFrom(s: Slot, op: Op)
    ensures SlotNext(s, op).thread.Spawned? ==>
      (s.thread.Spawned? && !op.CallRun?) || (op.Start? && s.job.status == READY)
  {
    hide ValidateBeginSection, ValidateFinishSection, CancelSection, SettleSection, CancelledHandlerSection,
      ErrorHandlerSection;
  }

  lemma SpendsRun(s: System, maxJobs: nat, step: Step, id: string)
    requires Invariant(s, maxJobs)
    ensures Emits(s, step, id, RunCalled)
      + Remaining(Next(s, maxJobs, step), id, RunCalled) <= Remaining(s, id, RunCalled)
  {
    hide SlotNext, SlotInvariant, Allowed, CreateSection;
    if id in s {
      StepFollowsTable(s, maxJobs, step, id);
      OnlyForward(s[id].job.status, Next(s, maxJobs, step)[id].job.status);
      SpawnedIsLate(s[id]);
      if step.On? && step.id == id { SpawnedFrom(s[id], step.op); }
    }
  }

  lemma SpawnedIsLate(s: Slot)
    requires SlotInvariant(s)
    ensures s.thread.Spawned? ==> Stage(s.job.status) >= 3
  {
  }

  lemma OnlyForward(from: Status, to: Status)
    requires from == to || to in Allowed(from)
    ensures Stage(from) <= Stage(to)
  {
  }

  lemma StepSpends(s: System, maxJobs: nat, step: Step, id: string, effect: Effect)
    requires Invariant(s, maxJobs)
    ensures Emits(s, step, id, effect) + Remaining(Next(s, maxJobs, step), id, effect) <= Remaining(s, id, effect)
  {
    hide *;
    match effect {
      case FactoryCalled => SpendsFactory(s, maxJobs, step, id);
      case ThreadStarted => SpendsThread(s, maxJobs, step, id);
      case RunCalled => SpendsRun(s, maxJobs, step, id);
    }
  }

  lemma {:induction false} RunSpends(s: System, maxJobs: nat, steps: seq<Step>, id: string, effect: Effect)
    requires Invariant(s, maxJobs)
    ensures Count(s, maxJobs, steps, id, effect) <= Remaining(s, id, effect)
    decreases |steps|
  {
    if steps != [] {
      StepSpends(s, maxJobs, steps[0], id, effect);
      StepKeepsInvariant(s, maxJobs, steps[0]);
      RunSpends(Next(s, maxJobs, steps[0]), maxJobs, steps[1..], id, effect);
    }
  }

  /** Per job, whatever the interleaving, the factory is called, the executor thread is started and
      `run()` is invoked at most once. */
  lemma EffectsHappenAtMostOnce(maxJobs: nat, steps: seq<Step>, id: string, effect: Effect)
    ensures Count(map[], maxJobs, steps, id, effect) <= 1
  {
    RunSpends(map[], maxJobs, steps, id, effect);
  }

  // ----- cancel wins every race -----

  /** Once a job is cancelled it stays cancelled and never shows anything but the bare cancelled
      result, even if its run finishes with a loaded result later. */
  lemma {:induction false} CancelledForGood(s: System, maxJobs: nat, later: seq<Step>, id: string)
    requires Invariant(s, maxJobs) && id in s && s[id].job.status == CANCELLED
    ensures id in Run(s, maxJobs, later)
    ensures Run(s, maxJobs, later)[id].job.status == CANCELLED
    ensures ResultSection(Run(s, maxJobs, later)[id].job) == Answer(CANCELLED_RESULT)
  {
    RunKeepsInvariant(s, maxJobs, later);
    TerminalAbsorbs(s, maxJobs, later, id);
  }

  lemma CancelWins(maxJobs: nat, before: seq<Step>, after: seq<Step>, id: string)
    requires id in Run(map[], maxJobs, before)
    requires !Terminal(Run(map[], maxJobs, before)[id].job.status)
    ensures var s := Run(map[], maxJobs, before + [On(id, Op.Cancel)] + after);
      && id in s && s[id].job.status == CANCELLED
      && ResultSection(s[id].job) == Answer(CANCELLED_RESULT)
  {
    var mid := before + [On(id, Op.Cancel)];
    Reachable(maxJobs, mid);
    RunConcatenates(map[], maxJobs, before, [On(id, Op.Cancel)]);
    RunConcatenates(map[], maxJobs, mid, after);
    var s := Run(map[], maxJobs, before);
    assert Run(s, maxJobs, [On(id, Op.Cancel)]) == Next(s, maxJobs, On(id, Op.Cancel)) by {
      assert [On(id, Op.Cancel)][1..] == [];
    }
    CancelledForGood(Run(map[], maxJobs, mid), maxJobs, after, id);
  }

  lemma OpKeepsAnswer(s: Slot, op: Op)
    requires SlotInvariant(s) && Terminal(s.job.status)
    ensures ResultSection(SlotNext(s, op).job) == ResultSection(s.job) && Terminal(SlotNext(s, op).job.status)
  {
  }

  lemma StepKeepsAnswer(s: System, maxJobs: nat, step: Step, id: string)
    requires Invariant(s, maxJobs) && id in s && Terminal(s[id].job.status)
    ensures id in Next(s, maxJobs, step) && Terminal(Next(s, maxJobs, step)[id].job.status)
    ensures ResultSection(Next(s, maxJobs, step)[id].job) == ResultSection(s[id].job)
  {
    hide SlotNext, SlotInvariant, ResultSection, Terminal;
    if step.On? && step.id in s && step.id == id { OpKeepsAnswer(s[step.id], step.op); }
  }

  lemma {:induction false} AnswersAreFinalFrom(s: System, maxJobs: nat, later: seq<Step>, id: string)
    requires Invariant(s, maxJobs) && id in s && Terminal(s[id].job.status)
    ensures id in Run(s, maxJobs, later)
    ensures ResultSection(Run(s, maxJobs, later)[id].job) == ResultSection(s[id].job)
    decreases |later|
  {
    hide Next, ResultSection, Terminal, Invariant;
    if later != [] {
      StepKeepsInvariant(s, maxJobs, later[0]);
      StepKeepsAnswer(s, maxJobs, later[0], id);
      AnswersAreFinalFrom(Next(s, maxJobs, later[0]), maxJobs, later[1..], id);
    }
  }

  /** Whatever `result()` answers for a terminal job, it answers for ever. */
  lemma AnswersAreFinal(maxJobs: nat, before: seq<Step>, after: seq<Step>, id: string)
    requires id in Run(map[], maxJobs, before) && Terminal(Run(map[], maxJobs, before)[id].job.status)
    ensures var s, s' := Run(map[], maxJobs, before), Run(map[], maxJobs, before + after);
      id in s' && ResultSection(s'[id].job) == ResultSection(s[id].job)
  {
    Reachable(maxJobs, before);
    RunConcatenates(map[], maxJobs, before, after);
    AnswersAreFinalFrom(Run(map[], maxJobs, before), maxJobs, after, id);
  }

  // ----- what the answer of a job is -----

  function FailedResult(detail: string): JobResult {
    JobResult("FAILED", None, None, Some(detail))
  }

  /** What the executor leaves of a job that is RUNNING, by what its run did. */
  lemma SettledExactly(s: Slot, outcome: RunOutcome)
    requires SlotInvariant(s) && s.thread.InRun? && s.job.status == RUNNING
    ensures var j := SlotNext(s, Op.Settle(outcome)).job;
      && SlotNext(s, Op.Settle(outcome)).thread.Exited?
      && j.(status := RUNNING, result := None) == s.job
      && (j.status == CANCELLED <==> s.job.flag || outcome.RunCancelled?)
      && (j.status == CANCELLED ==> ResultSection(j) == Answer(CANCELLED_RESULT))
      && (!s.job.flag && outcome.Finished? ==>
            && ResultSection(j) == Answer(outcome.loaded)
            && j.status == if outcome.loaded.status == "FAILED" || outcome.runFailed then FAILED else SUCCEEDED)
      && (!s.job.flag && outcome.RunRaised? ==>
            j.status == FAILED && ResultSection(j) == Answer(FailedResult(outcome.detail)))
  {
  }

  lemma RunThenOne(maxJobs: nat, before: seq<Step>, step: Step, after: seq<Step>)
    ensures Run(map[], maxJobs, before + [step]) == Next(Run(map[], maxJobs, before), maxJobs, step)
    ensures Run(map[], maxJobs, before + [step] + after)
      == Run(Next(Run(map[], maxJobs, before), maxJobs, step), maxJobs, after)
  {
    hide Next;
    RunConcatenates(map[], maxJobs, before, [step]);
    RunConcatenates(map[], maxJobs, before + [step], after);
    assert [step][1..] == [];
  }

  /** `result()` answers for ever what the run of a RUNNING job came to: the loaded result itself, or the
      error it raised, and the bare cancelled result exactly when the signal was up or the runner said so. */
  lemma AnswerOfRun(maxJobs: nat, before: seq<Step>, outcome: RunOutcome, after: seq<Step>, id: string)
    requires id in Run(map[], maxJobs, before)
    requires Run(map[], maxJobs, before)[id].thread.InRun? && Run(map[], maxJobs, before)[id].job.status == RUNNING
    ensures var flag := Run(map[], maxJobs, before)[id].job.flag;
      var s := Run(map[], maxJobs, before + [On(id, Op.Settle(outcome))] + after);
      id in s && ResultSection(s[id].job) == Answer(
        if flag || outcome.RunCancelled? then CANCELLED_RESULT
        else if outcome.Finished? then outcome.loaded
        else FailedResult(outcome.detail))
    ensures var flag := Run(map[], maxJobs, before)[id].job.flag;
      var s := Run(map[], maxJobs, before + [On(id, Op.Settle(outcome))] + after);
      id in s && s[id].job.status ==
        if flag || outcome.RunCancelled? then CANCELLED
        else if outcome.Finished? && outcome.loaded.status != "FAILED" && !outcome.runFailed then SUCCEEDED
        else FAILED
  {
    var step := On(id, Op.Settle(outcome));
    var s := Run(map[], maxJobs, before);
    Reachable(maxJobs, before);
    SettledExactly(s[id], outcome);
    RunThenOne(maxJobs, before, step, after);
    StepKeepsInvariant(s, maxJobs, step);
    AnswersAreFinalFrom(Next(s, maxJobs, step), maxJobs, after, id);
    TerminalAbsorbs(Next(s, maxJobs, step), maxJobs, after, id);
  }

  /** What `validate` leaves of a job that nobody cancelled meanwhile: the runner that the factory built, or
      the factory's own error as the answer for ever. */
  lemma AnswerOfFactory(maxJobs: nat, before: seq<Step>, outcome: FactoryOutcome, after: seq<Step>, id: string)
    requires id in Run(map[], maxJobs, before)
    requires Run(map[], maxJobs, before)[id].validating && Run(map[], maxJobs, before)[id].job.status == VALIDATING
    ensures var s := Run(map[], maxJobs, before + [On(id, Op.ValidateFinish(outcome))]);
      id in s && s[id].job.status ==
        if outcome.FactoryRaised? then FAILED
        else if Run(map[], maxJobs, before)[id].job.flag then CANCELLED
        else READY
    ensures var s := Run(map[], maxJobs, before + [On(id, Op.ValidateFinish(outcome))] + after);
      && id in s
      && (outcome.Built? ==> s[id].job.run == Some(outcome.run))
      && (outcome.FactoryRaised? ==>
            s[id].job.status == FAILED && ResultSection(s[id].job) == Answer(FailedResult(outcome.detail)))
  {
    var step := On(id, Op.ValidateFinish(outcome));
    var s := Run(map[], maxJobs, before);
    Reachable(maxJobs, before);
    RunThenOne(maxJobs, before, step, after);
    StepKeepsInvariant(s, maxJobs, step);
    var s' := Next(s, maxJobs, step);
    if outcome.FactoryRaised? {
      AnswersAreFinalFrom(s', maxJobs, after, id);
      TerminalAbsorbs(s', maxJobs, after, id);
    } else {
      RunnerStays(s', maxJobs, after, id);
    }
  }

  lemma OpKeepsRunner(s: Slot, op: Op)
    requires SlotInvariant(s) && s.job.run.Some?
    ensures SlotNext(s, op).job.run == s.job.run
  {
  }

  lemma {:induction false} RunnerStays(s: System, maxJobs: nat, later: seq<Step>, id: string)
    requires Invariant(s, maxJobs) && id in s && s[id].job.run.Some?
    ensures id in Run(s, maxJobs, later) && Run(s, maxJobs, later)[id].job.run == s[id].job.run
    decreases |later|
  {
    hide SlotNext, SlotInvariant;
    if later != [] {
      StepKeepsInvariant(s, maxJobs, later[0]);
      if later[0].On? && later[0].id == id { OpKeepsRunner(s[id], later[0].op); }
      RunnerStays(Next(s, maxJobs, later[0]), maxJobs, later[1..], id);
    }
  }

  /** An answer that names a status names the status the job then has, and every error has its one reason. */
  lemma ResponsesTellTheState(maxJobs: nat, steps: seq<Step>, id: string, outcome: FactoryOutcome)
    requires id in Run(map[], maxJobs, steps)
    ensures var j := Run(map[], maxJobs, steps)[id].job;
      && (forall r | r in [ValidateBeginSection(j), StartSection(j), CancelSection(j)] ::
            r.1.Lifecycle? ==> r.1.status == r.0.status)
      && (ValidateFinishSection(j, outcome).1.Lifecycle? ==>
            ValidateFinishSection(j, outcome).1.status == ValidateFinishSection(j, outcome).0.status)
      && (ValidateBeginSection(j).1 == CallFactory <==> j.status == CREATED)
      && !ValidateBeginSection(j).1.Raises? && CancelSection(j).1.Lifecycle?
      && (StartSection(j).1 == Raises(NOT_READY) <==> j.status == CREATED)
      && (StartSection(j).1 == Raises(INVALID_TRANSITION) <==> j.status == VALIDATING || Terminal(j.status))
      && (StartSection(j).1 == Lifecycle(RUNNING) <==> j.status in {READY, RUNNING})
      && (ResultSection(j) == Raises(NOT_READY) <==> !Terminal(j.status))
      && (ResultSection(j).Answer? <==> Terminal(j.status))
  {
    Reachable(maxJobs, steps);
  }

  /** `create` is refused for one reason only, and otherwise answers with the status of the job asked for. */
  lemma CreateAnswers(s: System, maxJobs: nat, request: Request)
    requires Invariant(s, maxJobs)
    ensures var (jobs, r) := CreateSection(JobsOf(s), maxJobs, request);
      && (r == Raises(INVALID_REQUEST) <==>
            if request.id in s then s[request.id].job.request != request else |s| == maxJobs)
      && (r != Raises(INVALID_REQUEST) ==> request.id in jobs && r == Lifecycle(jobs[request.id].status))
      && (request.id in s || r.Raises? ==> jobs == JobsOf(s))
  {
    SameSize(JobsOf(s), s);
  }

  // ----- jobs do not disturb each other -----

  function OpsOn(steps: seq<Step>, id: string): (ops: seq<Op>) {
    if steps == [] then []
    else (if steps[0].On? && steps[0].id == id then [steps[0].op] else []) + OpsOn(steps[1..], id)
  }

  function SlotRun(s: Slot, ops: seq<Op>): (s': Slot)
    decreases |ops|
  {
    if ops == [] then s else SlotRun(SlotNext(s, ops[0]), ops[1..])
  }

  /** Where a job is depends on the operations on it alone, in their order. */
  lemma {:induction false} JobsAreIndependent(s: System, maxJobs: nat, steps: seq<Step>, id: string)
    requires id in s
    ensures id in Run(s, maxJobs, steps) && Run(s, maxJobs, steps)[id] == SlotRun(s[id], OpsOn(steps, id))
    decreases |steps|
  {
    hide SlotNext;
    if steps != [] {
      JobsAreIndependent(Next(s, maxJobs, steps[0]), maxJobs, steps[1..], id);
      if steps[0].On? && steps[0].id == id {
        var rest := OpsOn(steps[1..], id);
        assert ([steps[0].op] + rest)[1..] == rest;
      } else {
        assert [] + OpsOn(steps[1..], id) == OpsOn(steps[1..], id);
      }
    }
  }

  /** A request that finds room creates exactly its own job, and the request of a job never changes. */
  lemma CreatedAsAsked(maxJobs: nat, before: seq<Step>, request: Request, after: seq<Step>)
    requires request.id !in Run(map[], maxJobs, before) && |Run(map[], maxJobs, before)| < maxJobs
    ensures var s := Run(map[], maxJobs, before + [Create(request)]);
      s == Run(map[], maxJobs, before)[request.id := Slot(NewJob(request), false, false, NoThread)]
    ensures var s := Run(map[], maxJobs, before + [Create(request)] + after);
      request.id in s && s[request.id].job.request == request
  {
    var s := Run(map[], maxJobs, before);
    RunThenOne(maxJobs, before, Create(request), after);
    SameSize(JobsOf(s), s);
    RequestStays(Next(s, maxJobs, Create(request)), maxJobs, after, request.id);
  }

  lemma {:induction false} RequestStays(s: System, maxJobs: nat, later: seq<Step>, id: string)
    requires id in s
    ensures id in Run(s, maxJobs, later) && Run(s, maxJobs, later)[id].job.request == s[id].job.request
    decreases |later|
  {
    if later != [] {
      StepFollowsTable(s, maxJobs, later[0], id);
      RequestStays(Next(s, maxJobs, later[0]), maxJobs, later[1..], id);
    }
  }

  function Published(ops: seq<Op>): (events: seq<string>) {
    if ops == [] then []
    else (if ops[0].Publish? then [ops[0].event] else []) + Published(ops[1..])
  }

  lemma {:induction false} EventsOf(s: Slot, ops: seq<Op>)
    ensures SlotRun(s, ops).job.events == s.job.events + Published(ops)
    decreases |ops|
  {
    if ops != [] { EventsOf(SlotNext(s, ops[0]), ops[1..]); }
  }

  /** A job's progress is what was published for it, all of it and in order. */
  lemma ProgressIsComplete(s: System, maxJobs: nat, steps: seq<Step>, id: string)
    requires id in s
    ensures id in Run(s, maxJobs, steps)
    ensures Run(s, maxJobs, steps)[id].job.events == s[id].job.events + Published(OpsOn(steps, id))
  {
    JobsAreIndependent(s, maxJobs, steps, id);
    EventsOf(s[id], OpsOn(steps, id));
  }

  /** A job that nobody cancels goes all the way, whatever happens to other jobs meanwhile. */
  lemma UndisturbedJobSucceeds(s: System, maxJobs: nat, steps: seq<Step>, request: Request, run: nat, loaded: JobResult)
    requires request.id in s && s[request.id] == Slot(NewJob(request), false, false, NoThread)
    requires OpsOn(steps, request.id)
      == [Op.ValidateBegin, Op.ValidateFinish(Built(run)), Op.Start, CallRun, Op.Settle(Finished(loaded, false))]
    requires loaded.status != "FAILED"
    ensures request.id in Run(s, maxJobs, steps)
    ensures var j := Run(s, maxJobs, steps)[request.id].job;
      j == Job(request, SUCCEEDED, false, Some(run), Some(loaded), [], true)
  {
    JobsAreIndependent(s, maxJobs, steps, request.id);
    var ops := OpsOn(steps, request.id);
    var a := SlotNext(s[request.id], ops[0]);
    var b := SlotNext(a, ops[1]);
    var c := SlotNext(b, ops[2]);
    var d := SlotNext(c, ops[3]);
    FiveOps(s[request.id], ops);
  }

  lemma FiveOps(s: Slot, ops: seq<Op>)
    requires |ops| == 5
    ensures SlotRun(s, ops) ==
      SlotNext(SlotNext(SlotNext(SlotNext(SlotNext(s, ops[0]), ops[1]), ops[2]), ops[3]), ops[4])
  {
    hide SlotNext;
    var a := SlotNext(s, ops[0]);
    var b := SlotNext(a, ops[1]);
    var c := SlotNext(b, ops[2]);
    var d := SlotNext(c, ops[3]);
    assert ops[1..][1..] == ops[2..] && ops[2..][1..] == ops[3..] && ops[3..][1..] == ops[4..] && ops[4..][1..] == [];
    assert SlotRun(s, ops) == SlotRun(a, ops[1..]) == SlotRun(b, ops[2..]);
    assert SlotRun(b, ops[2..]) == SlotRun(c, ops[3..]) == SlotRun(d, ops[4..]);
    assert SlotRun(d, ops[4..]) == SlotRun(SlotNext(d, ops[4]), []);
  }

  ghost predicate OnlyCancelRaisesTheFlag(steps: seq<Step>) {
    forall i :: 0 <= i < |steps| ==> !(steps[i].On? && steps[i].op.RaiseFlag?)
  }

  ghost predicate FlagMeansCancelled(s: System) {
    forall id :: id in s && s[id].job.flag ==> s[id].job.status == CANCELLED
  }

  lemma {:induction false} FlagMeansCancelledAlong(s: System, maxJobs: nat, steps: seq<Step>)
    requires FlagMeansCancelled(s) && OnlyCancelRaisesTheFlag(steps)
    ensures FlagMeansCancelled(Run(s, maxJobs, steps))
    decreases |steps|
  {
    if steps != [] {
      assert !(steps[0].On? && steps[0].op.RaiseFlag?);
      FlagMeansCancelledAlong(Next(s, maxJobs, steps[0]), maxJobs, steps[1..]);
    }
  }

  /** If only `cancel()` raises the signal, then at every lock release a raised signal means
      CANCELLED, and SUCCEEDED means a stored result that is not FAILED and a signal never raised. */
  lemma CancellationIsConsistent(maxJobs: nat, steps: seq<Step>, id: string)
    requires OnlyCancelRaisesTheFlag(steps) && id in Run(map[], maxJobs, steps)
    ensures var j := Run(map[], maxJobs, steps)[id].job;
      && (j.flag ==> j.status == CANCELLED)
      && (j.status == SUCCEEDED ==> !j.flag && j.result.Some? && j.result.value.status != "FAILED")
  {
    Reachable(maxJobs, steps);
    FlagMeansCancelledAlong(map[], maxJobs, steps);
  }

  // ----- who may fail, and when -----

  /** The second half of `validate` raises exactly when a cancel landed between the halves, always
      with INVALID_TRANSITION, and the job then stays CANCELLED. */
  lemma ValidateRaisesIffCancelled(maxJobs: nat, steps: seq<Step>, id: string, outcome: FactoryOutcome)
    requires id in Run(map[], maxJobs, steps) && Run(map[], maxJobs, steps)[id].validating
    ensures var j := Run(map[], maxJobs, steps)[id].job;
      && (ValidateFinishSection(j, outcome).1.Raises? <==> j.status == CANCELLED)
      && (j.status == CANCELLED ==>
            && ValidateFinishSection(j, outcome).1 == Raises(INVALID_TRANSITION)
            && ValidateFinishSection(j, outcome).0.status == CANCELLED)
  {
    Reachable(maxJobs, steps);
  }

  /** No reachable executor meets a forbidden transition: it never reaches the handler from its own
      section and never crashes in a handler, and once it has left, the job is terminal with a result
      stored. A READY job always has its runner, so `start` never reports it missing. */
  lemma ExecutorIsSafe(maxJobs: nat, steps: seq<Step>, id: string)
    requires id in Run(map[], maxJobs, steps)
    ensures var s := Run(map[], maxJobs, steps)[id];
      && !s.thread.Handling? && !s.thread.Crashed?
      && (s.thread.Exited? ==> Terminal(s.job.status) && s.job.result.Some?)
      && (s.job.status == READY ==> StartSection(s.job).1 == Lifecycle(RUNNING))
  {
    Reachable(maxJobs, steps);
  }

  /** The executor was killed, or the `validate` call was, before anybody cancelled. */
  predicate Stuck(s: Slot) {
    (s.thread.Killed? && s.job.status == RUNNING) || (s.abandoned && s.job.status == VALIDATING)
  }

  lemma StuckStep(s: Slot, op: Op)
    requires SlotInvariant(s) && Stuck(s)
    ensures var s' := SlotNext(s, op);
      if op.Cancel? then s'.job.status == CANCELLED else Stuck(s') && s'.job.status == s.job.status
  {
  }

  /** A runner or a factory that raises a BaseException which is no Exception leaves its job behind: it
      stays RUNNING, or VALIDATING, without a result, until somebody cancels it, and nothing but a cancel
      ever moves it. */
  lemma {:induction false} StuckUntilCancelled(s: System, maxJobs: nat, later: seq<Step>, id: string)
    requires Invariant(s, maxJobs) && id in s && Stuck(s[id])
    ensures id in Run(s, maxJobs, later)
    ensures var j := Run(s, maxJobs, later)[id].job;
      && (On(id, Op.Cancel) in later ==> j.status == CANCELLED)
      && (On(id, Op.Cancel) !in later ==> j.status == s[id].job.status && ResultSection(j) == Raises(NOT_READY))
    decreases |later|
  {
    if later != [] {
      var s' := Next(s, maxJobs, later[0]);
      StepKeepsInvariant(s, maxJobs, later[0]);
      if later[0].On? && later[0].id == id { StuckStep(s[id], later[0].op); }
      hide SlotNext, SlotInvariant, ResultSection;
      assert later == [later[0]] + later[1..];
      if later[0] == On(id, Op.Cancel) {
        TerminalAbsorbs(s', maxJobs, later[1..], id);
      } else {
        StuckUntilCancelled(s', maxJobs, later[1..], id);
      }
    }
  }

  /** Both happen: the shortest runs that get a job stuck. */
  lemma JobsGetStuck(request: Request)
    ensures var s := Run(map[], 1, [Create(request), On(request.id, ValidateBegin), On(request.id, AbandonValidate)]);
      request.id in s && Stuck(s[request.id]) && s[request.id].job.status == VALIDATING
    ensures var s := Run(map[], 1, [Create(request), On(request.id, ValidateBegin),
                                    On(request.id, ValidateFinish(Built(0))), On(request.id, Op.Start),
                                    On(request.id, CallRun), On(request.id, KillThread)]);
      request.id in s && Stuck(s[request.id]) && s[request.id].job.status == RUNNING
  {
    var id := request.id;
    var s := Next(map[], 1, Create(request));
    assert s == map[id := Slot(NewJob(request), false, false, NoThread)];
    var t := Next(s, 1, On(id, ValidateBegin));
    RunOfThree(map[], [Create(request), On(id, ValidateBegin), On(id, AbandonValidate)]);
    RunOfThree(map[], [Create(request), On(id, ValidateBegin), On(id, ValidateFinish(Built(0)))]);
    var u := Next(t, 1, On(id, ValidateFinish(Built(0))));
    RunOfThree(u, [On(id, Op.Start), On(id, CallRun), On(id, KillThread)]);
    RunConcatenates(map[], 1, [Create(request), On(id, ValidateBegin), On(id, ValidateFinish(Built(0)))],
                    [On(id, Op.Start), On(id, CallRun), On(id, KillThread)]);
    assert [Create(request), On(id, ValidateBegin), On(id, ValidateFinish(Built(0))), On(id, Op.Start), On(id, CallRun),
            On(id, KillThread)]
        == [Create(request), On(id, ValidateBegin), On(id, ValidateFinish(Built(0)))]
           + [On(id, Op.Start), On(id, CallRun), On(id, KillThread)];
  }

  lemma RunOfThree(s: System, steps: seq<Step>)
    requires |steps| == 3
    ensures Run(s, 1, steps) == Next(Next(Next(s, 1, steps[0]), 1, steps[1]), 1, steps[2])
  {
    hide Next;
    var a := Next(s, 1, steps[0]);
    var b := Next(a, 1, steps[1]);
    assert steps[1..][1..] == steps[2..] && steps[2..][1..] == [];
    assert Run(a, 1, steps[1..]) == Run(b, 1, steps[2..]);
    assert Run(b, 1, steps[2..]) == Run(Next(b, 1, steps[2]), 1, []);
  }

  lemma RegistryIsBounded(maxJobs: nat, steps: seq<Step>)
    ensures |Run(map[], maxJobs, steps)| <= maxJobs
  {
    Reachable(maxJobs, steps);
  }

  /** A finished run settles a job as FAILED beside a loaded result that is not FAILED exactly when
      the orchestrator reported failure and the loader did not. */
  lemma FailedBesideLoadedResult(maxJobs: nat, steps: seq<Step>, id: string, loaded: JobResult, runFailed: bool)
    requires id in Run(map[], maxJobs, steps)
    requires Run(map[], maxJobs, steps)[id].thread.InRun?
    ensures var s := Run(map[], maxJobs, steps)[id];
      var j := SlotNext(s, Op.Settle(Finished(loaded, runFailed))).job;
      (j.status == FAILED && j.result == Some(loaded) && loaded.status != "FAILED") <==>
        (!s.job.flag && s.job.status == RUNNING && runFailed && loaded.status != "FAILED")
  {
    Reachable(maxJobs, steps);
  }
}
