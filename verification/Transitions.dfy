/** src/acp/db/queries/transitions.py: the compare-and-set every change of `tasks.state` but two goes through. */
module Transitions {
  import opened Wrappers
  import opened States
  import opened Tables

  datatype Rejection =
    | NotFound | StateMismatch | AttemptMismatch | WorkerMismatch | LeaseNotExpired | ExecutionTimeNotExceeded

  // `Raised` is the exception for an empty or illegal `expect_state`; a lost race is `Rejected`.
  datatype TransitionResult = Raised | Applied(task: Task) | Rejected(rejection: Rejection, observed: Option<Task>)

  datatype Guard = Guard(
    anchor: seq<State>, attempt: Option<nat>, worker: Option<WorkerId>, leaseExpired: bool, executionTimeExceeded: bool)

  // The columns a caller may set besides `state`; times are relative to now().
  datatype Patch = Patch(
    availableIn: Option<int>, dropLease: bool, finish: bool,
    result: Option<Json>, errorClass: Option<string>, requestCancel: bool)

  function Patched(t: Task, to: State, p: Patch, now: Time): Task {
    t.(state := to,
       availableAt := if p.availableIn.Some? then now + p.availableIn.value else t.availableAt,
       leaseWorker := if p.dropLease then None else t.leaseWorker,
       leaseExpiresAt := if p.dropLease then None else t.leaseExpiresAt,
       finishedAt := if p.finish then Some(now) else t.finishedAt,
       result := if p.result.Some? then p.result else t.result,
       errorClass := if p.errorClass.Some? then p.errorClass else t.errorClass,
       cancelRequested := t.cancelRequested || p.requestCancel)
  }

  predicate LegalFrom(anchor: seq<State>, to: State) {
    anchor != [] && forall s <- anchor :: IsLegal(s, to)
  }

  /** The WHERE clause, on the row's latest version. */
  predicate Matches(t: Task, g: Guard, now: Time) {
    && t.state in g.anchor
    && (g.attempt.Some? ==> t.attempt == g.attempt.value)
    && (g.worker.Some? ==> t.leaseWorker == g.worker)
    && (g.leaseExpired ==> LeaseExpired(t, now))
    && (g.executionTimeExceeded ==> ExecutionTimeExceeded(t, now))
  }

  /** Python's `a or b` on a nullable string: the empty string counts as missing. */
  function Or(a: Option<WorkerId>, b: Option<WorkerId>): Option<WorkerId> {
    if a.Some? && a.value != "" then a else b
  }

  /** Which clause refused the row, in the order the code asks. */
  function Reason(t: Task, g: Guard, now: Time): Rejection {
    if t.state !in g.anchor then StateMismatch
    else if g.attempt.Some? && t.attempt != g.attempt.value then AttemptMismatch
    else if g.worker.Some? && t.leaseWorker != g.worker then WorkerMismatch
    else if g.leaseExpired && !LeaseExpired(t, now) then LeaseNotExpired
    else if g.executionTimeExceeded && !ExecutionTimeExceeded(t, now) then ExecutionTimeNotExceeded
    else StateMismatch
  }

  function TransitionTo(db: Db, id: TaskId, g: Guard, to: State, kind: EventType, p: Patch): (Db, TransitionResult) {
    if !LegalFrom(g.anchor, to) then (db, Raised)
    else if id !in db.tasks then (db, Rejected(NotFound, None))
    else if !Matches(db.tasks[id], g, db.now) then
      (db, Rejected(Reason(db.tasks[id], g, db.now), Some(db.tasks[id])))
    else
      var t := Patched(db.tasks[id], to, p, db.now);
      (db.(tasks := db.tasks[id := t],
           events := db.events + [Event(id, Some(t.attempt), kind, Or(t.leaseWorker, g.worker))]),
       Applied(t))
  }

  /** An expectation that is met, or was not made. */
  predicate Agrees(actual: nat, expected: Option<nat>) {
    expected.Some? ==> expected.value == actual
  }

  /** The fence names its reason truthfully: whatever the guard, a rejection's reason is a clause the
      row really fails, the reasons before it are clauses the row meets, and the contention fallback
      of `_explain` is never the answer when the row is read in the same transaction. */
  lemma RejectionIsTruthful(db: Db, id: TaskId, g: Guard, to: State, kind: EventType, p: Patch)
    ensures var (after, res) := TransitionTo(db, id, g, to, kind, p);
      && (res.Applied? <==> LegalFrom(g.anchor, to) && id in db.tasks && Matches(db.tasks[id], g, db.now))
      && (!res.Applied? ==> after == db)
      && (res.Rejected? ==> (res.rejection == NotFound <==> id !in db.tasks))
      && (res.Rejected? && id in db.tasks ==>
            var t := db.tasks[id];
            match res.rejection
            case StateMismatch => t.state !in g.anchor
            case AttemptMismatch => t.state in g.anchor && g.attempt.Some? && t.attempt != g.attempt.value
            case WorkerMismatch => t.state in g.anchor && Agrees(t.attempt, g.attempt) && g.worker.Some? && t.leaseWorker != g.worker
            case LeaseNotExpired =>
              && t.state in g.anchor && Agrees(t.attempt, g.attempt) && (g.worker.Some? ==> t.leaseWorker == g.worker)
              && g.leaseExpired && !LeaseExpired(t, db.now)
            case ExecutionTimeNotExceeded =>
              && t.state in g.anchor && Agrees(t.attempt, g.attempt) && (g.worker.Some? ==> t.leaseWorker == g.worker)
              && (g.leaseExpired ==> LeaseExpired(t, db.now))
              && g.executionTimeExceeded && !ExecutionTimeExceeded(t, db.now)
            case NotFound => false)
  {}

  /** The two checks before the statement: some expected state, and none of them illegal. */
  method CheckLegal(anchor: seq<State>, to: State) returns (legal: bool)
    ensures legal <==> LegalFrom(anchor, to)
  {
    if anchor == [] {
      return false;
    }
    for i := 0 to |anchor|
      invariant forall s <- anchor[..i] :: IsLegal(s, to)
    {
      if !IsLegal(anchor[i], to) {
        return false;
      }
    }
    legal := true;
  }

  method Transition(conn: Connection, id: TaskId, g: Guard, to: State, kind: EventType, p: Patch)
    returns (res: TransitionResult)
    modifies conn
    ensures (conn.Snapshot(), res) == TransitionTo(old(conn.Snapshot()), id, g, to, kind, p)
  {
    var legal := CheckLegal(g.anchor, to);
    if !legal {
      return Raised;
    }
    if id in conn.tasks && Matches(conn.tasks[id], g, conn.now) {
      var row := Patched(conn.tasks[id], to, p, conn.now);
      conn.tasks := conn.tasks[id := row];
      conn.events := conn.events + [Event(id, Some(row.attempt), kind, Or(row.leaseWorker, g.worker))];
      return Applied(row);
    }
    res := Explain(conn, id, g);
  }

  /** `_explain`: re-read the row to classify the rejection. */
  method Explain(conn: Connection, id: TaskId, g: Guard) returns (res: TransitionResult)
    ensures res == if id !in conn.tasks then Rejected(NotFound, None)
                   else Rejected(Reason(conn.tasks[id], g, conn.now), Some(conn.tasks[id]))
  {
    if id !in conn.tasks {
      return Rejected(NotFound, None);
    }
    var obs := conn.tasks[id];
    var reason := StateMismatch;
    if obs.state !in g.anchor {
      reason := StateMismatch;
    } else if g.attempt.Some? && obs.attempt != g.attempt.value {
      reason := AttemptMismatch;
    } else if g.worker.Some? && obs.leaseWorker != g.worker {
      reason := WorkerMismatch;
    } else if g.leaseExpired && !LeaseExpired(obs, conn.now) {
      reason := LeaseNotExpired;
    } else if g.executionTimeExceeded && !ExecutionTimeExceeded(obs, conn.now) {
      reason := ExecutionTimeNotExceeded;
    }
    res := Rejected(reason, Some(obs));
  }

  /** `record_event`: append only. The foreign key refuses an unknown task. */
  function Recorded(db: Db, id: TaskId, kind: EventType, attempt: Option<nat>, worker: Option<WorkerId>): Db {
    if id in db.tasks then db.(events := db.events + [Event(id, attempt, kind, worker)]) else db
  }

  method RecordEvent(conn: Connection, id: TaskId, kind: EventType, attempt: Option<nat>, worker: Option<WorkerId>)
    modifies conn
    ensures conn.Snapshot() == Recorded(old(conn.Snapshot()), id, kind, attempt, worker)
  {
    if id in conn.tasks {
      conn.events := conn.events + [Event(id, attempt, kind, worker)];
    }
  }
}
