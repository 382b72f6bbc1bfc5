/** src/acp/db/queries/completion.py and lease.py: the ways a worker's attempt ends, and its renewal. */
module Completion {
  import opened Wrappers
  import opened States
  import opened Tables
  import opened Transitions

  datatype Ending =
    | Succeed(result: Json)
    | Retry(errorClass: string, backoff: nat)
    | Fail(errorClass: string)
    | Cancel
    | Abandon(reason: string)

  function Target(e: Ending): State {
    match e
    case Succeed(_) => Succeeded
    case Retry(_, _) => Queued
    case Fail(_) => Failed
    case Cancel => Cancelled
    case Abandon(_) => Queued
  }

  function EventOf(e: Ending): EventType {
    match e
    case Succeed(_) => TaskSucceeded
    case Retry(_, _) => RetryScheduled
    case Fail(_) => TaskFailed
    case Cancel => TaskCancelled
    case Abandon(_) => TaskAbandoned
  }

  function OutcomeOf(e: Ending): Outcome {
    match e
    case Succeed(_) => DidSucceed
    case Retry(_, _) => DidFail
    case Fail(_) => DidFail
    case Cancel => WasCancelled
    case Abandon(_) => WasAbandoned
  }

  function PatchOf(e: Ending): Patch {
    match e
    case Succeed(result) => Patch(None, true, true, Some(result), None, false)
    case Retry(c, backoff) => Patch(Some(backoff), true, false, None, Some(c), false)
    case Fail(c) => Patch(None, true, true, None, Some(c), false)
    case Cancel => Patch(None, true, true, None, None, false)
    case Abandon(_) => Patch(Some(0), true, false, None, None, false)
  }

  /** The error class written to the attempt row: an abandoned attempt records its reason there. */
  function AttemptError(e: Ending): Option<string> {
    match e
    case Retry(c, _) => Some(c)
    case Fail(c) => Some(c)
    case Abandon(reason) => Some(reason)
    case _ => None
  }

  /** `finish_attempt`: an UPDATE by primary key, so a missing row changes nothing. */
  function Finished(
    attempts: map<AttemptKey, AttemptRow>, key: AttemptKey, outcome: Outcome, error: Option<string>, now: Time)
    : map<AttemptKey, AttemptRow>
  {
    if key in attempts then
      attempts[key := attempts[key].(finishedAt := Some(now), outcome := Some(outcome), errorClass := error)]
    else attempts
  }

  method FinishAttempt(conn: Connection, key: AttemptKey, outcome: Outcome, error: Option<string>)
    modifies conn
    ensures conn.Snapshot() ==
            old(conn.Snapshot()).(attempts := Finished(old(conn.attempts), key, outcome, error, conn.now))
  {
    if key in conn.attempts {
      var row := conn.attempts[key];
      conn.attempts :=
        conn.attempts[key := row.(finishedAt := Some(conn.now), outcome := Some(outcome), errorClass := error)];
    }
  }

  function Fence(attempt: nat, worker: WorkerId): Guard {
    Guard([Running], Some(attempt), Some(worker), false, false)
  }

  /** Each `complete_*`: the fenced transition, and the attempt row only when it applied. */
  function Complete(db: Db, id: TaskId, attempt: nat, worker: WorkerId, e: Ending): (Db, TransitionResult) {
    var (after, res) := TransitionTo(db, id, Fence(attempt, worker), Target(e), EventOf(e), PatchOf(e));
    if res.Applied? then
      (after.(attempts := Finished(after.attempts, AttemptKey(id, attempt), OutcomeOf(e), AttemptError(e), db.now)), res)
    else (after, res)
  }

  /** The row after an ending was accepted. */
  function EndedRow(t: Task, e: Ending, now: Time): Task {
    Patched(t, Target(e), PatchOf(e), now)
  }

  function EndEvent(t: Task, id: TaskId, worker: WorkerId, e: Ending): Event {
    Event(id, Some(t.attempt), EventOf(e), Or(t.leaseWorker, Some(worker)))
  }

  /** What an accepted ending writes: the row, the announcing event, the outcome of the attempt. */
  function EndedDb(db: Db, id: TaskId, worker: WorkerId, e: Ending): Db
    requires id in db.tasks
  {
    var t := EndedRow(db.tasks[id], e, db.now);
    db.(tasks := db.tasks[id := t], events := db.events + [EndEvent(t, id, worker, e)],
        attempts := Finished(db.attempts, AttemptKey(id, t.attempt), OutcomeOf(e), AttemptError(e), db.now))
  }

  /** An ending applies exactly to a live tenure, and otherwise changes nothing. */
  lemma CompleteShape(db: Db, id: TaskId, attempt: nat, worker: WorkerId, e: Ending)
    ensures if Holds(db, id, attempt, worker)
            then Complete(db, id, attempt, worker, e) == (EndedDb(db, id, worker, e), Applied(EndedRow(db.tasks[id], e, db.now)))
            else Complete(db, id, attempt, worker, e).0 == db && Complete(db, id, attempt, worker, e).1.Rejected?
  {
    assert IsLegal(Running, Target(e));
  }

  method CompleteSuccess(conn: Connection, id: TaskId, attempt: nat, worker: WorkerId, result: Json)
    returns (res: TransitionResult)
    modifies conn
    ensures (conn.Snapshot(), res) == Complete(old(conn.Snapshot()), id, attempt, worker, Succeed(result))
  {
    res := Transition(conn, id, Guard([Running], Some(attempt), Some(worker), false, false), Succeeded, TaskSucceeded,
                      Patch(None, true, true, Some(result), None, false));
    if res.Applied? {
      FinishAttempt(conn, AttemptKey(id, attempt), DidSucceed, None);
    }
  }

  method CompleteRetry(
    conn: Connection, id: TaskId, attempt: nat, worker: WorkerId, errorClass: string, backoff: nat)
    returns (res: TransitionResult)
    modifies conn
    ensures (conn.Snapshot(), res) == Complete(old(conn.Snapshot()), id, attempt, worker, Retry(errorClass, backoff))
  {
    res := Transition(conn, id, Guard([Running], Some(attempt), Some(worker), false, false), Queued, RetryScheduled,
                      Patch(Some(backoff), true, false, None, Some(errorClass), false));
    if res.Applied? {
      FinishAttempt(conn, AttemptKey(id, attempt), DidFail, Some(errorClass));
    }
  }

  method CompleteFailed(conn: Connection, id: TaskId, attempt: nat, worker: WorkerId, errorClass: string)
    returns (res: TransitionResult)
    modifies conn
    ensures (conn.Snapshot(), res) == Complete(old(conn.Snapshot()), id, attempt, worker, Fail(errorClass))
  {
    res := Transition(conn, id, Guard([Running], Some(attempt), Some(worker), false, false), Failed, TaskFailed,
                      Patch(None, true, true, None, Some(errorClass), false));
    if res.Applied? {
      FinishAttempt(conn, AttemptKey(id, attempt), DidFail, Some(errorClass));
    }
  }

  method CompleteCancelled(conn: Connection, id: TaskId, attempt: nat, worker: WorkerId)
    returns (res: TransitionResult)
    modifies conn
    ensures (conn.Snapshot(), res) == Complete(old(conn.Snapshot()), id, attempt, worker, Cancel)
  {
    res := Transition(conn, id, Guard([Running], Some(attempt), Some(worker), false, false), Cancelled, TaskCancelled,
                      Patch(None, true, true, None, None, false));
    if res.Applied? {
      FinishAttempt(conn, AttemptKey(id, attempt), WasCancelled, None);
    }
  }

  method CompleteAbandoned(conn: Connection, id: TaskId, attempt: nat, worker: WorkerId, reason: string)
    returns (res: TransitionResult)
    modifies conn
    ensures (conn.Snapshot(), res) == Complete(old(conn.Snapshot()), id, attempt, worker, Abandon(reason))
  {
    res := Transition(conn, id, Guard([Running], Some(attempt), Some(worker), false, false), Queued, TaskAbandoned,
                      Patch(Some(0), true, false, None, None, false));
    if res.Applied? {
      FinishAttempt(conn, AttemptKey(id, attempt), WasAbandoned, Some(reason));
    }
  }

  // ---- src/acp/db/queries/lease.py -------------------------------------------------------------

  /** The renewal predicate: the tenure is live and its lease has not run out. */
  predicate Renewable(db: Db, id: TaskId, attempt: nat, worker: WorkerId) {
    && Holds(db, id, attempt, worker)
    && db.tasks[id].leaseExpiresAt.Some?
    && db.tasks[id].leaseExpiresAt.value > db.now
  }

  /** `renew_lease`: the cancel flag on success, nothing when ownership is gone. */
  function Renew(db: Db, id: TaskId, attempt: nat, worker: WorkerId, ttl: nat): (Db, Option<bool>) {
    if Renewable(db, id, attempt, worker) then
      var t := db.tasks[id].(leaseExpiresAt := Some(db.now + Seconds(ttl)));
      (db.(tasks := db.tasks[id := t]), Some(t.cancelRequested))
    else (db, None)
  }

  method RenewLease(conn: Connection, id: TaskId, attempt: nat, worker: WorkerId, ttl: nat)
    returns (row: Option<bool>)
    modifies conn
    ensures (conn.Snapshot(), row) == Renew(old(conn.Snapshot()), id, attempt, worker, ttl)
  {
    if id in conn.tasks {
      var t := conn.tasks[id];
      if t.state == Running && t.attempt == attempt && t.leaseWorker == Some(worker)
         && t.leaseExpiresAt.Some? && t.leaseExpiresAt.value > conn.now {
        conn.tasks := conn.tasks[id := t.(leaseExpiresAt := Some(conn.now + Seconds(ttl)))];
        return Some(t.cancelRequested);
      }
    }
    row := None;
  }
}
