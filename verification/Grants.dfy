/** src/acp/db/queries/claim.py, second half: granting the claimed ids. */
module Grants {
  import opened Wrappers
  import opened States
  import opened Tables
  import opened Claim
  import opened Rounds

  /** Granting a list of distinct ids changes exactly their rows, each once. */
  lemma {:induction false} GrantAllEffect(db: Db, ids: seq<TaskId>, worker: WorkerId, ttl: nat)
    requires Distinct(ids) && forall id <- ids :: id in db.tasks
    ensures var after := GrantAll(db, ids, worker, ttl);
      && after.now == db.now && after.tenants == db.tenants && after.tasks.Keys == db.tasks.Keys
      && (forall id | id in db.tasks ::
            after.tasks[id] == if id in ids then GrantedRow(db.tasks[id], worker, ttl, db.now) else db.tasks[id])
      && (forall key :: key in after.attempts <==>
            key in db.attempts || (key.task in ids && key.attempt == db.tasks[key.task].attempt + 1))
  {
    if ids == [] {
    } else {
      var front, last := ids[..|ids| - 1], ids[|ids| - 1];
      GrantAllEffect(db, front, worker, ttl);
      assert ids == front + [last] && last !in front;
    }
  }

  /** One more grant, table by table. */
  lemma GrantStep(db: Db, ids: seq<TaskId>, k: nat, worker: WorkerId, ttl: nat)
    requires Distinct(ids) && (forall id <- ids :: id in db.tasks) && k < |ids|
    ensures var before := GrantAll(db, ids[..k], worker, ttl); var after := GrantAll(db, ids[..k + 1], worker, ttl);
            var id := ids[k]; var row := GrantedRow(db.tasks[id], worker, ttl, db.now);
      && id in before.tasks && before.tasks[id] == db.tasks[id]
      && after.tasks == before.tasks[id := row]
      && after.events == before.events + [Event(id, Some(row.attempt), TaskClaimed, Some(worker))]
      && after.attempts == before.attempts[AttemptKey(id, row.attempt) := AttemptRow(worker, db.now, None, None, None)]
      && (AttemptKey(id, row.attempt) in before.attempts <==> AttemptKey(id, row.attempt) in db.attempts)
  {
    assert ids[..k + 1][..k] == ids[..k] && ids[..k + 1][k] == ids[k];
    assert ids[k] !in ids[..k];
    GrantAllEffect(db, ids[..k], worker, ttl);
  }

  /** The UPDATE over `id IN (claimed)`; no state is asked for. */
  method UpdateRows(conn: Connection, ids: seq<TaskId>, worker: WorkerId, ttl: nat) returns (rows: seq<Task>)
    requires Distinct(ids) && forall id <- ids :: id in conn.tasks
    modifies conn`tasks
    ensures var db := old(conn.Snapshot());
            && conn.tasks == GrantAll(db, ids, worker, ttl).tasks
            && |rows| == |ids| && forall i | 0 <= i < |ids| :: rows[i] == GrantedRow(db.tasks[ids[i]], worker, ttl, db.now)
  {
    ghost var db := conn.Snapshot();
    rows := [];
    for k := 0 to |ids|
      invariant conn.tasks == GrantAll(db, ids[..k], worker, ttl).tasks
      invariant |rows| == k && forall i | 0 <= i < k :: rows[i] == GrantedRow(db.tasks[ids[i]], worker, ttl, db.now)
    {
      GrantStep(db, ids, k, worker, ttl);
      var row := GrantedRow(conn.tasks[ids[k]], worker, ttl, conn.now);
      conn.tasks := conn.tasks[ids[k] := row];
      rows := rows + [row];
    }
    assert ids[..|ids|] == ids;
  }

  /** The batch insert into task_events. */
  method InsertEvents(conn: Connection, ids: seq<TaskId>, rows: seq<Task>, worker: WorkerId, ttl: nat, ghost db: Db)
    requires Distinct(ids) && (forall id <- ids :: id in db.tasks) && conn.events == db.events && conn.now == db.now
    requires |rows| == |ids| && forall i | 0 <= i < |ids| :: rows[i] == GrantedRow(db.tasks[ids[i]], worker, ttl, db.now)
    modifies conn`events
    ensures conn.events == GrantAll(db, ids, worker, ttl).events
  {
    for k := 0 to |ids|
      invariant conn.events == GrantAll(db, ids[..k], worker, ttl).events
    {
      GrantStep(db, ids, k, worker, ttl);
      conn.events := conn.events + [Event(ids[k], Some(rows[k].attempt), TaskClaimed, Some(worker))];
    }
    assert ids[..|ids|] == ids;
  }

  /** The batch insert into task_attempts; a duplicate primary key fails it. */
  method InsertAttempts(conn: Connection, ids: seq<TaskId>, rows: seq<Task>, worker: WorkerId, ttl: nat, ghost db: Db)
    returns (ok: bool)
    requires Distinct(ids) && (forall id <- ids :: id in db.tasks) && conn.attempts == db.attempts && conn.now == db.now
    requires |rows| == |ids| && forall i | 0 <= i < |ids| :: rows[i] == GrantedRow(db.tasks[ids[i]], worker, ttl, db.now)
    modifies conn`attempts
    ensures ok <==> !Duplicate(db, ids)
    ensures ok ==> conn.attempts == GrantAll(db, ids, worker, ttl).attempts
  {
    for k := 0 to |ids|
      invariant conn.attempts == GrantAll(db, ids[..k], worker, ttl).attempts
      invariant forall i | 0 <= i < k :: AttemptKey(ids[i], db.tasks[ids[i]].attempt + 1) !in db.attempts
    {
      GrantStep(db, ids, k, worker, ttl);
      var key := AttemptKey(ids[k], rows[k].attempt);
      if key in conn.attempts {
        assert ids[k] in ids;
        return false;
      }
      conn.attempts := conn.attempts[key := AttemptRow(worker, conn.now, None, None, None)];
    }
    assert ids[..|ids|] == ids;
    ok := true;
  }

  /** `claim_tasks`: run the rounds, then grant. A failed insert rolls the transaction back. */
  method ClaimTasks(conn: Connection, worker: WorkerId, limit: nat, ttl: nat, caps: seq<string>, locked: set<TaskId>,
                    maxRounds: nat := MAX_ROUNDS)
    returns (claimed: seq<TaskId>, rows: seq<Task>)
    modifies conn
    ensures var db := old(conn.Snapshot()); var ids := ClaimWithin(db, caps, limit, locked, maxRounds);
      && conn.Snapshot() == ClaimTo(db, worker, limit, ttl, caps, locked, maxRounds)
      && claimed == (if Duplicate(db, ids) then [] else ids)
      && |rows| == |claimed|
      && forall i | 0 <= i < |claimed| :: claimed[i] in conn.tasks && rows[i] == conn.tasks[claimed[i]]
  {
    var ids := RunRounds(conn, caps, limit, locked, maxRounds);
    ClaimGuarantee(conn.Snapshot(), caps, limit, locked, maxRounds);
    rows := GrantRows(conn, ids, worker, ttl);
    claimed := if rows == [] then [] else ids;
  }

  /** The three statements of the grant, in one transaction. */
  method GrantRows(conn: Connection, ids: seq<TaskId>, worker: WorkerId, ttl: nat) returns (rows: seq<Task>)
    requires Distinct(ids) && forall id <- ids :: id in conn.tasks
    modifies conn
    ensures var db := old(conn.Snapshot());
      if Duplicate(db, ids) then conn.Snapshot() == db && rows == []
      else
        && conn.Snapshot() == GrantAll(db, ids, worker, ttl)
        && |rows| == |ids| && forall i | 0 <= i < |ids| :: ids[i] in conn.tasks && rows[i] == conn.tasks[ids[i]]
  {
    ghost var db := conn.Snapshot();
    var tasks0, attempts0, events0 := conn.tasks, conn.attempts, conn.events;
    rows := UpdateRows(conn, ids, worker, ttl);
    InsertEvents(conn, ids, rows, worker, ttl, db);
    var ok := InsertAttempts(conn, ids, rows, worker, ttl, db);
    GrantAllEffect(db, ids, worker, ttl);
    if !ok {
      conn.tasks, conn.attempts, conn.events := tasks0, attempts0, events0;
      rows := [];
    }
  }
}
