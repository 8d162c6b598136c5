/** The experiment lifecycle: seven statuses and the table of allowed transitions. */
module ExperimentContracts {

  datatype Status = CREATED | VALIDATING | READY | RUNNING | SUCCEEDED | FAILED | CANCELLED

  datatype ErrorCode = NOT_FOUND | INVALID_REQUEST | NOT_READY | INVALID_TRANSITION | RUN_FAILED

  datatype Result<+T> = Ok(value: T) | Err(code: ErrorCode)

  function Allowed(status: Status): (next: set<Status>) {
    match status
    case CREATED => {VALIDATING, CANCELLED}
    case VALIDATING => {READY, FAILED, CANCELLED}
    case READY => {RUNNING, CANCELLED}
    case RUNNING => {SUCCEEDED, FAILED, CANCELLED}
    case SUCCEEDED => {}
    case FAILED => {}
    case CANCELLED => {}
  }

  predicate Terminal(status: Status) {
    status in {SUCCEEDED, FAILED, CANCELLED}
  }

  function Transition(from: Status, to: Status): (r: Result<Status>) {
    if to in Allowed(from) then Ok(to) else Err(INVALID_TRANSITION)
  }

  // The order in which a job can meet its statuses.
  function Stage(status: Status): (n: nat) {
    match status
    case CREATED => 0
    case VALIDATING => 1
    case READY => 2
    case RUNNING => 3
    case _ => 4
  }

  /** What may follow: a cancellation at any time before the end, otherwise the next step of the way, which is
      VALIDATING, READY, RUNNING, SUCCEEDED; only validating and running can fail. */
  lemma TableExactly(from: Status, to: Status)
    ensures to in Allowed(from) <==>
      && !Terminal(from)
      && (|| to == CANCELLED
          || (to == FAILED && from in {VALIDATING, RUNNING})
          || (to !in {CANCELLED, FAILED} && Stage(to) == Stage(from) + 1))
    ensures Terminal(from) <==> Allowed(from) == {}
  {
    assert CANCELLED in Allowed(CREATED) && CANCELLED in Allowed(VALIDATING) && CANCELLED in Allowed(READY)
        && CANCELLED in Allowed(RUNNING);
  }

  /** `history` lists the statuses a job goes through, each one allowed after the one before. */
  ghost predicate AllowedPath(history: seq<Status>) {
    forall i :: 0 <= i < |history| - 1 ==> history[i + 1] in Allowed(history[i])
  }

  /** The table has no cycles: a path never meets a status twice, has at most five entries,
      and leaves no terminal status. */
  lemma {:induction false} PathsAreShort(history: seq<Status>)
    requires AllowedPath(history) && history != []
    ensures forall i, j :: 0 <= i < j < |history| ==> Stage(history[i]) < Stage(history[j])
    ensures Stage(history[0]) + |history| <= 5
    ensures forall i :: 0 <= i < |history| - 1 ==> !Terminal(history[i])
  {
    if |history| > 1 {
      var rest := history[1..];
      forall i | 0 <= i < |rest| - 1 ensures rest[i + 1] in Allowed(rest[i]) {
        assert history[i + 2] in Allowed(history[i + 1]);
      }
      PathsAreShort(rest);
      assert history[1] in Allowed(history[0]) && rest[0] == history[1];
      forall i, j | 0 <= i < j < |history| ensures Stage(history[i]) < Stage(history[j]) {
        if i == 0 {
          assert j == 1 || Stage(rest[0]) < Stage(rest[j - 1]);
        } else {
          assert Stage(rest[i - 1]) < Stage(rest[j - 1]);
        }
      }
    }
  }
}
