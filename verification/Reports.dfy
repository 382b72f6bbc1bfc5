/** src/acp/worker/loop.py, `_finalize`, by its effect: what a report leaves in every column of the three
    tables, from the reported outcome alone. */
module Reports {
  import opened Wrappers
  import opened States
  import opened Tables
  import opened Transitions
  import opened Completion
  import opened Finalize
  import opened Orders
  import opened Rounds
  import opened Tasks
  import opened Ledger
  import opened Protocol
  import opened WorkerLoop
  import R = Retry

  /** The reported attempt is the one that is running, and the reporter holds its lease. */
  predicate IsHeld(db: Db, worker: WorkerId, f: Flight) {
    f.task in db.tasks &&
    var t := db.tasks[f.task]; t.state == Running && t.attempt == f.attempt && t.leaseWorker.Some? && t.leaseWorker.value == worker
  }

  /** One attempt row gets its end, and no other attempt row changes. */
  ghost predicate AttemptEnds(a: map<AttemptKey, AttemptRow>, b: map<AttemptKey, AttemptRow>, key: AttemptKey,
                              outcome: Outcome, error: Option<string>, now: Time)
  {
    && b.Keys == a.Keys && (forall other <- a | other != key :: b[other] == a[other])
    && (key in a ==> b[key] == AttemptRow(a[key].worker, a[key].startedAt, Some(now), Some(outcome), error))
  }

  lemma FinishedEnds(a: map<AttemptKey, AttemptRow>, key: AttemptKey, outcome: Outcome, error: Option<string>, now: Time)
    ensures AttemptEnds(a, Finished(a, key, outcome, error, now), key, outcome, error, now)
  {}

  /** What a report of a held attempt does besides the row: the end of the attempt, and one event. */
  ghost predicate OneEnding(db: Db, after: Db, f: Flight, worker: WorkerId, outcome: Outcome, error: Option<string>, kind: EventType) {
    && after == db.(tasks := after.tasks, attempts := after.attempts, events := after.events)
    && after.tasks.Keys == db.tasks.Keys && (forall other <- db.tasks | other != f.task :: after.tasks[other] == db.tasks[other])
    && AttemptEnds(db.attempts, after.attempts, AttemptKey(f.task, f.attempt), outcome, error, db.now)
    && after.events == db.events + [Event(f.task, Some(f.attempt), kind, Some(worker))]
  }

  lemma CompleteEnds(db: Db, f: Flight, worker: WorkerId, e: Ending)
    requires IsHeld(db, worker, f)
    ensures var (after, res) := Complete(db, f.task, f.attempt, worker, e);
      && res.Applied? && OneEnding(db, after, f, worker, OutcomeOf(e), AttemptError(e), EventOf(e))
      && after.tasks[f.task] == EndedRow(db.tasks[f.task], e, db.now)
  {
    CompleteShape(db, f.task, f.attempt, worker, e);
    FinishedEnds(db.attempts, AttemptKey(f.task, f.attempt), OutcomeOf(e), AttemptError(e), db.now);
  }

  lemma ReportEnds(db: Db, worker: WorkerId, cancelled: bool, r: Report)
    requires IsHeld(db, worker, r.flight)
    ensures var e := EndingFor(r.run, cancelled, r.flight.attempt, MaxAttemptsOf(db, r.flight.task), r.u, r.v);
            Finalized(db, worker, cancelled, r) == Complete(db, r.flight.task, r.flight.attempt, worker, e).0
    ensures MaxAttemptsOf(db, r.flight.task) == db.tasks[r.flight.task].maxAttempts
  {
    CompleteEnds(db, r.flight, worker,
                 EndingFor(r.run, cancelled, r.flight.attempt, MaxAttemptsOf(db, r.flight.task), r.u, r.v));
  }

  /** The cancel event comes first: whatever the adapter returned, the task ends CANCELLED. */
  lemma CancelReported(db: Db, worker: WorkerId, r: Report)
    requires IsHeld(db, worker, r.flight)
    ensures var f := r.flight; var after := Finalized(db, worker, true, r);
      && OneEnding(db, after, f, worker, WasCancelled, None, TaskCancelled)
      && after.tasks[f.task] == db.tasks[f.task].(
           state := Cancelled, finishedAt := Some(db.now), leaseWorker := None, leaseExpiresAt := None)
  {
    ReportEnds(db, worker, true, r);
    CompleteEnds(db, r.flight, worker, Cancel);
  }

  /** A result ends the task SUCCEEDED and is stored. */
  lemma SuccessReported(db: Db, worker: WorkerId, r: Report)
    requires IsHeld(db, worker, r.flight) && r.run.RanOk?
    ensures var f := r.flight; var after := Finalized(db, worker, false, r);
      && OneEnding(db, after, f, worker, DidSucceed, None, TaskSucceeded)
      && after.tasks[f.task] == db.tasks[f.task].(
           state := Succeeded, result := Some(r.run.result), finishedAt := Some(db.now), leaseWorker := None, leaseExpiresAt := None)
  {
    ReportEnds(db, worker, false, r);
    CompleteEnds(db, r.flight, worker, Succeed(r.run.result));
  }

  /** The name under which a failure class is stored. */
  predicate IsNamed(c: R.FailureClass, name: string) {
    match c
    case Transient => name == "TRANSIENT"
    case RateLimited => name == "RATE_LIMITED"
    case Timeout => name == "TIMEOUT"
    case DependencyUnavailable => name == "DEPENDENCY_UNAVAILABLE"
    case LostWorker => name == "WORKER_LOST"
    case Permanent => name == "PERMANENT"
    case UserError => name == "USER_ERROR"
    case PermissionDenied => name == "PERMISSION_DENIED"
    case Unknown => name == "UNKNOWN"
  }

  /** A failure earns another attempt: its class can pass, and the budget and the class's own limit of two
      attempts leave room. */
  predicate EarnsRetry(c: R.FailureClass, attempt: nat, maxAttempts: nat) {
    && c != R.Permanent && c != R.UserError && c != R.PermissionDenied
    && attempt < maxAttempts && (c == R.Unknown ==> attempt < 2)
  }

  /** The delay is `seconds`, cut to whole microseconds; a negative one is none. */
  predicate IsCut(seconds: real, micros: int) {
    if seconds <= 0.0 then micros == 0 else micros as real <= 1000000.0 * seconds && 1000000.0 * seconds < micros as real + 1.0
  }

  lemma MicrosCut(seconds: real)
    ensures IsCut(seconds, Micros(seconds))
  {
    if seconds > 0.0 {
      var d := seconds * 1000000.0;
      assert d.Floor as real <= d < d.Floor as real + 1.0;
    }
  }

  /** Seconds of delay after a failure: with a hint, the hint and a jitter on top; else a share of the
      class's doubling interval. */
  function DelayOf(first: real, cap: real, attempt: nat, hint: Option<real>, u: R.Unit, v: R.Unit): real {
    var doubled := first * R.Power2(if attempt > 0 then attempt - 1 else 0);
    if hint.Some? then hint.value + v * (if first < 1.0 then 1.0 else first)
    else u * (if doubled < cap then doubled else cap)
  }

  lemma BackoffIsDelay(c: R.FailureClass, first: real, cap: real, attempt: nat, hint: Option<real>, u: R.Unit, v: R.Unit)
    requires R.HasIntervals(c, first, cap)
    ensures R.Backoff(c, attempt, hint, u, v) == DelayOf(first, cap, attempt, hint, u, v)
  {
    R.CeilingRange(c, attempt);
    NoTop(u);
    assert R.Max(1.0, first) == if first < 1.0 then 1.0 else first;
  }

  lemma NoTop(u: R.Unit)
    ensures R.Uniform(u, 0.0) == 0.0
  {}

  /** A failure that earns another attempt requeues the task for after its delay, with the class on the row
      and on the attempt. */
  lemma RetryReported(db: Db, worker: WorkerId, r: Report, first: real, cap: real, name: string)
    requires IsHeld(db, worker, r.flight) && r.run.RanBadly?
    requires EarnsRetry(r.run.failure, r.flight.attempt, db.tasks[r.flight.task].maxAttempts)
    requires R.HasIntervals(r.run.failure, first, cap) && IsNamed(r.run.failure, name)
    ensures var f := r.flight; var after := Finalized(db, worker, false, r);
      && OneEnding(db, after, f, worker, DidFail, Some(name), RetryScheduled)
      && after.tasks[f.task] == db.tasks[f.task].(
           state := Queued, availableAt := after.tasks[f.task].availableAt, errorClass := Some(name),
           leaseWorker := None, leaseExpiresAt := None)
      && IsCut(DelayOf(first, cap, f.attempt, r.run.retryAfter, r.u, r.v), after.tasks[f.task].availableAt - db.now)
  {
    var f := r.flight;
    var d := R.Decide(r.run.failure, f.attempt, db.tasks[f.task].maxAttempts, r.run.retryAfter, r.u, r.v);
    R.DecideMeaning(r.run.failure, f.attempt, db.tasks[f.task].maxAttempts, r.run.retryAfter, r.u, r.v);
    BackoffIsDelay(r.run.failure, first, cap, f.attempt, r.run.retryAfter, r.u, r.v);
    MicrosCut(d.backoff);
    ReportEnds(db, worker, false, r);
    CompleteEnds(db, f, worker, Retry(name, Micros(d.backoff)));
  }

  /** Any other failure ends the task FAILED. */
  lemma FailureReported(db: Db, worker: WorkerId, r: Report, name: string)
    requires IsHeld(db, worker, r.flight) && r.run.RanBadly?
    requires !EarnsRetry(r.run.failure, r.flight.attempt, db.tasks[r.flight.task].maxAttempts)
    requires IsNamed(r.run.failure, name)
    ensures var f := r.flight; var after := Finalized(db, worker, false, r);
      && OneEnding(db, after, f, worker, DidFail, Some(name), TaskFailed)
      && after.tasks[f.task] == db.tasks[f.task].(
           state := Failed, errorClass := Some(name), finishedAt := Some(db.now), leaseWorker := None, leaseExpiresAt := None)
  {
    var f := r.flight;
    R.DecideMeaning(r.run.failure, f.attempt, db.tasks[f.task].maxAttempts, r.run.retryAfter, r.u, r.v);
    ReportEnds(db, worker, false, r);
    CompleteEnds(db, f, worker, Fail(name));
  }

  /** A report of an attempt that is not held changes no row; it leaves a note if there is such a task. */
  lemma RefusedReport(db: Db, worker: WorkerId, cancelled: bool, r: Report)
    requires !IsHeld(db, worker, r.flight)
    ensures Finalized(db, worker, cancelled, r) ==
      if r.flight.task in db.tasks
      then db.(events := db.events + [Event(r.flight.task, Some(r.flight.attempt), StaleWriteRejected, Some(worker))])
      else db
  {
    CompleteShape(db, r.flight.task, r.flight.attempt, worker,
                  EndingFor(r.run, cancelled, r.flight.attempt, MaxAttemptsOf(db, r.flight.task), r.u, r.v));
  }

  /** In one line: the state a report of a held attempt leaves, from the report and two columns of the row. */
  lemma ReportedState(db: Db, worker: WorkerId, cancelled: bool, r: Report)
    requires IsHeld(db, worker, r.flight)
    ensures var t := db.tasks[r.flight.task]; var after := Finalized(db, worker, cancelled, r).tasks;
      && r.flight.task in after
      && (after[r.flight.task].state == Cancelled <==> cancelled)
      && (after[r.flight.task].state == Succeeded <==> !cancelled && r.run.RanOk?)
      && (after[r.flight.task].state == Queued <==>
            !cancelled && r.run.RanBadly?
            && r.run.failure !in {R.Permanent, R.UserError, R.PermissionDenied}
            && r.flight.attempt < t.maxAttempts && (r.run.failure == R.Unknown ==> r.flight.attempt < 2))
      && after[r.flight.task].state != Running
  {
    ReportEnds(db, worker, cancelled, r);
    CompleteEnds(db, r.flight, worker,
                 EndingFor(r.run, cancelled, r.flight.attempt, MaxAttemptsOf(db, r.flight.task), r.u, r.v));
  }

  // ---- handing back --------------------------------------------------------------------------------------

  /** A held attempt that is handed back requeues its task for now, whatever its number; the reason goes to
      the attempt row only. */
  lemma HandedBack(db: Db, worker: WorkerId, f: Flight, reason: string)
    requires IsHeld(db, worker, f)
    ensures var after := Apply(db, HandBack(f.task, f.attempt, worker, reason));
      && OneEnding(db, after, f, worker, WasAbandoned, Some(reason), TaskAbandoned)
      && after.tasks[f.task] == db.tasks[f.task].(state := Queued, availableAt := db.now, leaseWorker := None, leaseExpiresAt := None)
  {
    CompleteEnds(db, f, worker, Abandon(reason));
  }

  /** And one that is not held is not touched. */
  lemma HandBackRefused(db: Db, worker: WorkerId, f: Flight, reason: string)
    requires !IsHeld(db, worker, f)
    ensures Apply(db, HandBack(f.task, f.attempt, worker, reason)) == db
  {
    CompleteShape(db, f.task, f.attempt, worker, Abandon(reason));
  }

  /** The columns of a task, and of the attempt that ran it, after it was handed back at shutdown. */
  ghost predicate GivenUp(db: Db, after: Db, f: Flight)
    requires f.task in db.tasks
  {
    var key := AttemptKey(f.task, f.attempt);
    && f.task in after.tasks
    && after.tasks[f.task] == db.tasks[f.task].(state := Queued, availableAt := db.now, leaseWorker := None, leaseExpiresAt := None)
    && (key in db.attempts ==>
          && key in after.attempts
          && after.attempts[key] == AttemptRow(db.attempts[key].worker, db.attempts[key].startedAt, Some(db.now),
                                               Some(WasAbandoned), Some("worker_shutdown")))
  }

  /** Nothing of this task or attempt has changed. */
  ghost predicate Untouched(db: Db, after: Db, f: Flight)
    requires f.task in db.tasks
  {
    var key := AttemptKey(f.task, f.attempt);
    && f.task in after.tasks && after.tasks[f.task] == db.tasks[f.task]
    && (key in after.attempts <==> key in db.attempts) && (key in db.attempts ==> after.attempts[key] == db.attempts[key])
  }

  lemma OneGivenUp(db: Db, worker: WorkerId, f: Flight, g: Flight)
    requires g.task in db.tasks
    ensures var after := Complete(db, f.task, f.attempt, worker, Abandon(SHUTDOWN)).0;
      && after.now == db.now
      && (f == g && IsHeld(db, worker, g) ==> GivenUp(db, after, g))
      && (f.task != g.task || !IsHeld(db, worker, f) ==> Untouched(db, after, g))
  {
    if IsHeld(db, worker, f) {
      HandedBack(db, worker, f, SHUTDOWN);
    } else {
      HandBackRefused(db, worker, f, SHUTDOWN);
    }
  }

  lemma {:induction false} ListGivenUp(db: Db, worker: WorkerId, owned: map<TaskId, nat>, ids: seq<TaskId>, f: Flight)
    requires Distinct(ids) && (forall id <- ids :: id in owned) && IsHeld(db, worker, f)
    ensures var after := AbandonAll(db, worker, owned, ids);
      && after.now == db.now
      && if f.task in ids && owned[f.task] == f.attempt then GivenUp(db, after, f) else Untouched(db, after, f)
  {
    if ids == [] {
    } else {
      var front, last := ids[..|ids| - 1], ids[|ids| - 1];
      FrontAndLast(ids);
      ListGivenUp(db, worker, owned, front, f);
      OneGivenUp(AbandonAll(db, worker, owned, front), worker, Flight(last, owned[last]), f);
    }
  }

  /** A drain, in columns: an attempt of this worker that is listed is handed back with the reason
      "worker_shutdown", and one that is not listed stays as it is. */
  lemma DrainGivesUp(db: Db, worker: WorkerId, l: Local, f: Flight)
    requires IsHeld(db, worker, f)
    ensures var after := Drained(db, worker, l);
            if f.task in l.owned && l.owned[f.task] == f.attempt then GivenUp(db, after, f) else Untouched(db, after, f)
  {
    InOrderFacts(l.owned.Keys);
    ListGivenUp(db, worker, l.owned, InOrder(l.owned.Keys), f);
  }
}
