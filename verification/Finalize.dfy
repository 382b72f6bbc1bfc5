/** src/acp/worker/loop.py, `_finalize`: which ending a worker reports for an attempt. */
module Finalize {
  import opened Wrappers
  import opened Tables
  import opened Completion
  import R = Retry

  // What the adapter produced: a result, or a classified failure with an optional server hint.
  datatype RunOutcome = RanOk(result: Json) | RanBadly(failure: R.FailureClass, retryAfter: Option<real>)

  function ClassName(c: R.FailureClass): string {
    match c
    case Transient => "TRANSIENT"
    case RateLimited => "RATE_LIMITED"
    case Timeout => "TIMEOUT"
    case DependencyUnavailable => "DEPENDENCY_UNAVAILABLE"
    case LostWorker => "WORKER_LOST"
    case Permanent => "PERMANENT"
    case UserError => "USER_ERROR"
    case PermissionDenied => "PERMISSION_DENIED"
    case Unknown => "UNKNOWN"
  }

  /** Seconds to the database's microseconds; a negative hint counts as none before this. */
  function Micros(seconds: real): nat {
    if seconds <= 0.0 then 0 else (seconds * 1000000.0).Floor
  }

  /** The order of the branches: the cancel flag first, whatever the adapter returned. */
  function EndingFor(run: RunOutcome, cancelled: bool, attempt: nat, maxAttempts: nat, u: R.Unit, v: R.Unit): Ending {
    if cancelled then Cancel
    else match run
      case RanOk(result) => Succeed(result)
      case RanBadly(failure, hint) =>
        var d := R.Decide(failure, attempt, maxAttempts, hint, u, v);
        if d.shouldRetry then Retry(ClassName(failure), Micros(d.backoff)) else Fail(ClassName(failure))
  }

  /** A worker only reports a retry inside the attempt budget. */
  lemma RetryWithinBudget(run: RunOutcome, cancelled: bool, attempt: nat, maxAttempts: nat, u: R.Unit, v: R.Unit)
    ensures EndingFor(run, cancelled, attempt, maxAttempts, u, v).Retry? ==> attempt < maxAttempts
  {}
}
