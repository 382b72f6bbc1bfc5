/** src/acp/db/queries/reap.py: taking back RUNNING tasks whose lease expired or whose execution overran. */
module Reap {
  import opened Wrappers
  import opened Orders
  import opened States
  import opened Tables
  import opened Transitions
  import opened Completion

  // The two structurally identical recoveries differ only in their fence and their clock column.
  datatype Phase = LeasePhase | HungPhase

  function ErrorOf(phase: Phase): string {
    if phase.LeasePhase? then "LeaseExpired" else "ExecutionTimeExceeded"
  }

  predicate Overdue(t: Task, phase: Phase, now: Time) {
    t.state == Running && if phase.LeasePhase? then LeaseExpired(t, now) else ExecutionTimeExceeded(t, now)
  }

  function ReaperFence(phase: Phase): Guard {
    Guard([Running], None, None, phase.LeasePhase?, phase.HungPhase?)
  }

  /** `reap_task` / `reap_hung_task`, with the arguments the candidate SELECT read. */
  function ReapWith(db: Db, phase: Phase, id: TaskId, attempt: nat, maxAttempts: nat, leaseWorker: Option<WorkerId>)
    : (Db, bool)
  {
    var (after, res) :=
      if attempt < maxAttempts then
        TransitionTo(db, id, ReaperFence(phase), Queued, TaskRecovered,
                     Patch(Some(0), true, false, None, Some(ErrorOf(phase)), false))
      else
        TransitionTo(db, id, ReaperFence(phase), Failed, TaskFailed,
                     Patch(None, true, true, None, Some(ErrorOf(phase)), false));
    if !res.Applied? then (after, false)
    else
      var noted := Recorded(after, id, WorkerLost, Some(attempt), leaseWorker);
      (noted.(attempts := Finished(noted.attempts, AttemptKey(id, attempt), WasLost, Some(ErrorOf(phase)), db.now)),
       true)
  }

  /** One recovery of a row read under its lock. */
  function ReapOne(db: Db, phase: Phase, id: TaskId): Db {
    if id in db.tasks then
      var t := db.tasks[id];
      ReapWith(db, phase, id, t.attempt, t.maxAttempts, t.leaseWorker).0
    else db
  }

  function ReapAll(db: Db, phase: Phase, ids: seq<TaskId>): Db {
    if ids == [] then db else ReapOne(ReapAll(db, phase, ids[..|ids| - 1]), phase, ids[|ids| - 1])
  }

  method ReapTask(
    conn: Connection, phase: Phase, id: TaskId, attempt: nat, maxAttempts: nat, leaseWorker: Option<WorkerId>)
    returns (applied: bool)
    modifies conn
    ensures (conn.Snapshot(), applied) == ReapWith(old(conn.Snapshot()), phase, id, attempt, maxAttempts, leaseWorker)
  {
    var res;
    if attempt < maxAttempts {
      res := Transition(conn, id, ReaperFence(phase), Queued, TaskRecovered,
                        Patch(Some(0), true, false, None, Some(ErrorOf(phase)), false));
    } else {
      res := Transition(conn, id, ReaperFence(phase), Failed, TaskFailed,
                        Patch(None, true, true, None, Some(ErrorOf(phase)), false));
    }
    if !res.Applied? {
      return false;
    }
    RecordEvent(conn, id, WorkerLost, Some(attempt), leaseWorker);
    FinishAttempt(conn, AttemptKey(id, attempt), WasLost, Some(ErrorOf(phase)));
    applied := true;
  }

  // ---- the candidate SELECT ----------------------------------------------------------------------

  // The sort column (`lease_expires_at` or `first_started_at`) and the id that breaks ties.
  datatype Due = Due(since: Time, id: TaskId)

  predicate Earlier(a: Due, b: Due) {
    a.since < b.since || (a.since == b.since && a.id < b.id)
  }

  lemma EarlierIsTotalOrder()
    ensures TotalOrder(Earlier)
  {}

  function Since(t: Task, phase: Phase): Time {
    var at := if phase.LeasePhase? then t.leaseExpiresAt else t.firstStartedAt;
    if at.Some? then at.value else 0
  }

  /** Every overdue row no other transaction has locked. */
  function DueRows(db: Db, phase: Phase, locked: set<TaskId>): set<Due> {
    set id | id in db.tasks && Overdue(db.tasks[id], phase, db.now) && id !in locked :: Due(Since(db.tasks[id], phase), id)
  }

  /** `find_expired_leases` / `find_hung_tasks`. */
  function FindDue(db: Db, phase: Phase, limit: nat, locked: set<TaskId>): seq<Due> {
    EarlierIsTotalOrder();
    Take(limit, DueRows(db, phase, locked), Earlier)
  }

  function Ids(rows: seq<Due>): seq<TaskId> {
    seq(|rows|, i requires 0 <= i < |rows| => rows[i].id)
  }

  function ReapedRow(t: Task, phase: Phase, now: Time): Task {
    if t.attempt < t.maxAttempts then
      t.(state := Queued, availableAt := now, leaseWorker := None, leaseExpiresAt := None, errorClass := Some(ErrorOf(phase)))
    else
      t.(state := Failed, finishedAt := Some(now), leaseWorker := None, leaseExpiresAt := None,
         errorClass := Some(ErrorOf(phase)))
  }

  function RecoveryEvent(t: Task, id: TaskId): Event {
    Event(id, Some(t.attempt), if t.attempt < t.maxAttempts then TaskRecovered else TaskFailed, None)
  }

  /** What one recovery writes: the row, the announcement, WORKER_LOST, and LOST on the attempt. */
  function Recovered(db: Db, phase: Phase, id: TaskId): Db
    requires id in db.tasks
  {
    var t := db.tasks[id];
    db.(tasks := db.tasks[id := ReapedRow(t, phase, db.now)],
        events := db.events + [RecoveryEvent(t, id)] + [Event(id, Some(t.attempt), WorkerLost, t.leaseWorker)],
        attempts := Finished(db.attempts, AttemptKey(id, t.attempt), WasLost, Some(ErrorOf(phase)), db.now))
  }

  lemma FenceMeansOverdue(t: Task, phase: Phase, now: Time)
    ensures Matches(t, ReaperFence(phase), now) <==> Overdue(t, phase, now)
    ensures LegalFrom(ReaperFence(phase).anchor, Queued) && LegalFrom(ReaperFence(phase).anchor, Failed)
  {}

  /** A recovery applies exactly to an overdue row. */
  lemma ReapOneShape(db: Db, phase: Phase, id: TaskId)
    ensures ReapOne(db, phase, id) ==
            if id in db.tasks && Overdue(db.tasks[id], phase, db.now) then Recovered(db, phase, id) else db
  {
    if id in db.tasks {
      FenceMeansOverdue(db.tasks[id], phase, db.now);
    }
  }

  lemma ReapOneEffect(db: Db, phase: Phase, id: TaskId)
    requires id in db.tasks && Overdue(db.tasks[id], phase, db.now)
    ensures var t := db.tasks[id]; var after := ReapOne(db, phase, id);
      && ReapWith(db, phase, id, t.attempt, t.maxAttempts, t.leaseWorker) == (after, true)
      && after.now == db.now && after.tenants == db.tenants && after.tasks == db.tasks[id := ReapedRow(t, phase, db.now)]
  {
    ReapOneShape(db, phase, id);
  }

  /** A recovery never looks at the cancel flag: a task that was asked to stop is requeued, or failed when
      its budget is spent, and is never cancelled by the reaper. The flag stays for the next worker. */
  lemma RecoveryIgnoresCancelFlag(db: Db, phase: Phase, id: TaskId)
    requires id in db.tasks && Overdue(db.tasks[id], phase, db.now) && db.tasks[id].cancelRequested
    ensures var t := ReapOne(db, phase, id).tasks[id];
      && t.state != Cancelled && t.cancelRequested
      && (t.state == Queued <==> db.tasks[id].attempt < db.tasks[id].maxAttempts)
  {
    ReapOneShape(db, phase, id);
  }

  /** Reaping a list of distinct overdue rows takes exactly those rows out of RUNNING. */
  lemma {:induction false} ReapAllEffect(db: Db, phase: Phase, ids: seq<TaskId>)
    requires forall i, j :: 0 <= i < j < |ids| ==> ids[i] != ids[j]
    requires forall id <- ids :: id in db.tasks && Overdue(db.tasks[id], phase, db.now)
    ensures var after := ReapAll(db, phase, ids);
      && after.now == db.now && after.tenants == db.tenants
      && after.tasks.Keys == db.tasks.Keys
      && (forall id | id in db.tasks && id !in ids :: after.tasks[id] == db.tasks[id])
      && (forall id <- ids :: after.tasks[id] == ReapedRow(db.tasks[id], phase, db.now))
  {
    if ids == [] {
    } else {
      var front, last := ids[..|ids| - 1], ids[|ids| - 1];
      FrontAndLast(ids);
      ReapAllEffect(db, phase, front);
      assert last !in front;
      ReapOneEffect(ReapAll(db, phase, front), phase, last);
    }
  }

  /** After a batch the overdue rows are the ones the batch did not take. */
  lemma DueAfterBatch(db: Db, phase: Phase, locked: set<TaskId>, rows: seq<Due>)
    requires Increasing(rows, Earlier) && forall r <- rows :: r in DueRows(db, phase, locked)
    ensures DueRows(ReapAll(db, phase, Ids(rows)), phase, locked) == DueRows(db, phase, locked) - Elements(rows)
  {
    DistinctIds(db, phase, locked, rows);
    var ids := Ids(rows);
    ReapAllEffect(db, phase, ids);
    var after := ReapAll(db, phase, ids);
    forall r | r in DueRows(db, phase, locked) ensures r.id in ids <==> r in rows {
      if r.id in ids {
        var i :| 0 <= i < |ids| && ids[i] == r.id;
        assert rows[i] in DueRows(db, phase, locked);
      }
      if r in rows {
        var i :| 0 <= i < |rows| && rows[i] == r;
        assert ids[i] == r.id;
      }
    }
    forall r ensures r in DueRows(after, phase, locked) <==> r in DueRows(db, phase, locked) && r !in rows {
      if r in DueRows(after, phase, locked) {
        assert r.id in db.tasks && r.id !in ids;
        assert r in DueRows(db, phase, locked);
      }
      if r in DueRows(db, phase, locked) && r !in rows {
        assert r.id !in ids && after.tasks[r.id] == db.tasks[r.id];
      }
    }
  }

  lemma DistinctIds(db: Db, phase: Phase, locked: set<TaskId>, rows: seq<Due>)
    requires Increasing(rows, Earlier) && forall r <- rows :: r in DueRows(db, phase, locked)
    ensures forall i, j :: 0 <= i < j < |rows| ==> Ids(rows)[i] != Ids(rows)[j]
    ensures forall id <- Ids(rows) :: id in db.tasks && Overdue(db.tasks[id], phase, db.now)
  {
    forall i, j | 0 <= i < j < |rows| ensures Ids(rows)[i] != Ids(rows)[j] {
      assert rows[i] in DueRows(db, phase, locked) && rows[j] in DueRows(db, phase, locked);
      assert Earlier(rows[i], rows[j]);
    }
    forall id | id in Ids(rows) ensures id in db.tasks && Overdue(db.tasks[id], phase, db.now) {
      var i :| 0 <= i < |rows| && Ids(rows)[i] == id;
      assert rows[i] in DueRows(db, phase, locked);
    }
  }

  // ---- one batch -------------------------------------------------------------------------------

  datatype ReapResult = ReapResult(requeued: nat, failedExhausted: nat, overdue: seq<int>)

  predicate Exhausted(t: Task) {
    t.attempt >= t.maxAttempts
  }

  function ExhaustedIn(tasks: map<TaskId, Task>, rows: seq<Due>): nat {
    if rows == [] then 0 else
      var last := rows[|rows| - 1].id;
      ExhaustedIn(tasks, rows[..|rows| - 1]) + if last in tasks && Exhausted(tasks[last]) then 1 else 0
  }

  /** `overdue_s`, measured by the database clock: how long past its deadline the row already was. */
  function OverdueSeconds(t: Task, phase: Phase, now: Time): int {
    now - Since(t, phase) - if phase.HungPhase? then Seconds(t.maxExecutionTime) else 0
  }

  function OverdueList(db: Db, phase: Phase, rows: seq<Due>): seq<int>
    requires forall r <- rows :: r.id in db.tasks
  {
    if rows == [] then [] else
      var n := |rows| - 1;
      OverdueList(db, phase, rows[..n]) + [OverdueSeconds(db.tasks[rows[n].id], phase, db.now)]
  }

  /** The counters after one more recovered row. */
  function Counted(r: ReapResult, t: Task, overdue: int): ReapResult {
    if Exhausted(t) then ReapResult(r.requeued, r.failedExhausted + 1, r.overdue + [overdue])
    else ReapResult(r.requeued + 1, r.failedExhausted, r.overdue + [overdue])
  }

  /** Where a batch stands after its first `i` candidates. */
  ghost predicate BatchSoFar(db: Db, phase: Phase, rows: seq<Due>, i: nat, now: Db, result: ReapResult)
    requires i <= |rows| && forall r <- rows :: r.id in db.tasks
  {
    && now == ReapAll(db, phase, Ids(rows[..i]))
    && result.requeued + result.failedExhausted == i
    && result.failedExhausted == ExhaustedIn(db.tasks, rows[..i])
    && result.overdue == OverdueList(db, phase, rows[..i])
  }

  /** One candidate of the batch: recover it, and count it if the CAS applied. */
  method ReapRow(conn: Connection, phase: Phase, id: TaskId, row: Task, result: ReapResult) returns (after: ReapResult)
    modifies conn
    ensures var (db, applied) := ReapWith(old(conn.Snapshot()), phase, id, row.attempt, row.maxAttempts, row.leaseWorker);
      conn.Snapshot() == db && after == if applied then Counted(result, row, OverdueSeconds(row, phase, conn.now)) else result
  {
    var exhausted := row.attempt >= row.maxAttempts;
    var applied := ReapTask(conn, phase, id, row.attempt, row.maxAttempts, row.leaseWorker);
    after := result;
    if applied {
      if exhausted {
        after := after.(failedExhausted := after.failedExhausted + 1);
      } else {
        after := after.(requeued := after.requeued + 1);
      }
      after := after.(overdue := after.overdue + [OverdueSeconds(row, phase, conn.now)]);
    }
  }

  /** `reap_expired_leases` / `reap_hung_tasks`: because the candidates stay locked, every CAS applies,
      so a batch recovers exactly its candidates and its counters are exact. */
  method ReapBatch(conn: Connection, phase: Phase, limit: nat, locked: set<TaskId>) returns (result: ReapResult)
    modifies conn
    ensures var db := old(conn.Snapshot()); var rows := FindDue(db, phase, limit, locked);
      && conn.Snapshot() == ReapAll(db, phase, Ids(rows))
      && result.requeued + result.failedExhausted == |rows|
      && result.failedExhausted == ExhaustedIn(db.tasks, rows)
      && (forall r <- rows :: r.id in db.tasks)
      && result.overdue == OverdueList(db, phase, rows)
  {
    ghost var db := conn.Snapshot();
    var rows := FindDue(conn.Snapshot(), phase, limit, locked);
    FindDueRows(db, phase, limit, locked);
    result := ReapRows(conn, phase, rows, locked);
    assert rows[..|rows|] == rows;
  }

  /** The loop over the locked candidates, with the columns their SELECT read. */
  method ReapRows(conn: Connection, phase: Phase, rows: seq<Due>, ghost locked: set<TaskId>) returns (result: ReapResult)
    requires Increasing(rows, Earlier) && forall r <- rows :: r in DueRows(conn.Snapshot(), phase, locked)
    modifies conn
    ensures forall r <- rows :: r.id in old(conn.tasks)
    ensures BatchSoFar(old(conn.Snapshot()), phase, rows, |rows|, conn.Snapshot(), result)
  {
    ghost var db := conn.Snapshot();
    var selected := conn.tasks;
    DistinctIds(db, phase, locked, rows);
    RowsKnown(db, phase, locked, rows);
    result := ReapResult(0, 0, []);
    assert rows[..0] == [] && Ids([]) == [];
    for i := 0 to |rows|
      invariant forall r <- rows :: r.id in db.tasks
      invariant BatchSoFar(db, phase, rows, i, conn.Snapshot(), result)
    {
      BatchStep(db, phase, locked, rows, i, result);
      result := ReapRow(conn, phase, rows[i].id, selected[rows[i].id], result);
    }
  }

  lemma RowsKnown(db: Db, phase: Phase, locked: set<TaskId>, rows: seq<Due>)
    requires forall r <- rows :: r in DueRows(db, phase, locked)
    ensures forall r <- rows :: r.id in db.tasks
  {}

  lemma FindDueRows(db: Db, phase: Phase, limit: nat, locked: set<TaskId>)
    ensures Increasing(FindDue(db, phase, limit, locked), Earlier)
    ensures forall r <- FindDue(db, phase, limit, locked) :: r in DueRows(db, phase, locked)
  {
    EarlierIsTotalOrder();
    AscendingIncreases(DueRows(db, phase, locked), Earlier);
  }

  /** Row i of a batch is untouched by the rows before it, so its CAS applies. */
  lemma BatchApplies(db: Db, phase: Phase, locked: set<TaskId>, rows: seq<Due>, i: nat)
    requires Increasing(rows, Earlier) && forall r <- rows :: r in DueRows(db, phase, locked)
    requires i < |rows|
    ensures var id := rows[i].id; id in db.tasks && var t := db.tasks[id];
      && ReapWith(ReapAll(db, phase, Ids(rows[..i])), phase, id, t.attempt, t.maxAttempts, t.leaseWorker)
         == (ReapAll(db, phase, Ids(rows[..i + 1])), true)
      && ReapAll(db, phase, Ids(rows[..i])).now == db.now
  {
    DistinctIds(db, phase, locked, rows);
    var done := Ids(rows[..i]);
    assert done == Ids(rows)[..i];
    ReapAllEffect(db, phase, done);
    assert rows[i].id == Ids(rows)[i] && rows[i].id !in done;
    ReapOneEffect(ReapAll(db, phase, done), phase, rows[i].id);
    assert Ids(rows[..i + 1])[..i] == done;
  }

  lemma BatchStep(db: Db, phase: Phase, locked: set<TaskId>, rows: seq<Due>, i: nat, result: ReapResult)
    requires Increasing(rows, Earlier) && forall r <- rows :: r in DueRows(db, phase, locked)
    requires (forall r <- rows :: r.id in db.tasks) && i < |rows|
    ensures var before := ReapAll(db, phase, Ids(rows[..i])); var id := rows[i].id; var t := db.tasks[id];
            var (after, applied) := ReapWith(before, phase, id, t.attempt, t.maxAttempts, t.leaseWorker);
      && applied && before.now == db.now
      && (BatchSoFar(db, phase, rows, i, before, result) ==>
            BatchSoFar(db, phase, rows, i + 1, after, Counted(result, t, OverdueSeconds(t, phase, db.now))))
  {
    BatchApplies(db, phase, locked, rows, i);
    assert rows[..i + 1][..i] == rows[..i];
  }
}
