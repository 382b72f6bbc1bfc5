/** The invariant that ties the three tables together, one task at a time, and the ways a row may move. */
module Ledger {
  import opened Wrappers
  import opened States
  import opened Tables
  import opened Completion
  import opened Claim

  // ---- reading the event log -------------------------------------------------------------------------

  // What replaying the state-bearing events of one task gives: nothing yet, a state, or a log that
  // no legal history could have written.
  datatype Folded = Blank | At(state: State, attempt: nat) | Broken

  function Fold(f: Folded, e: Event): Folded {
    match Announces(e.kind)
    case None => f
    case Some(to) =>
      match f
      case Blank => if e.kind == TaskCreated && e.attempt == Some(0) then At(Queued, 0) else Broken
      case At(from, n) =>
        var m := if to == Running then n + 1 else n;
        if IsLegal(from, to) && e.attempt == Some(m) then At(to, m) else Broken
      case Broken => Broken
  }

  /** Replay one task's events, in id order, checking that every move is legal, that only claims
      raise the attempt number, and that they raise it by one. */
  function Replay(events: seq<Event>, id: TaskId): Folded {
    if events == [] then Blank else
      var e := events[|events| - 1];
      var before := Replay(events[..|events| - 1], id);
      if e.task == id then Fold(before, e) else before
  }

  lemma ReplaySnoc(events: seq<Event>, e: Event, id: TaskId)
    ensures Replay(events + [e], id) == if e.task == id then Fold(Replay(events, id), e) else Replay(events, id)
  {
    assert (events + [e])[..|events|] == events;
  }

  // ---- the ledger of attempts ---------------------------------------------------------------------------

  function Row(attempts: map<AttemptKey, AttemptRow>, id: TaskId, n: nat): Option<AttemptRow> {
    if AttemptKey(id, n) in attempts then Some(attempts[AttemptKey(id, n)]) else None
  }

  function OutcomeAt(attempts: map<AttemptKey, AttemptRow>, id: TaskId, n: nat): Option<Outcome> {
    if AttemptKey(id, n) in attempts then attempts[AttemptKey(id, n)].outcome else None
  }

  /** ck_tasks_lease_coherence, and no half-cleared lease. */
  predicate LeaseCoherent(t: Task) {
    && (t.state == Running <==> t.leaseWorker.Some?)
    && (t.state == Running <==> t.leaseExpiresAt.Some?)
  }

  /** The attempt rows of a task are exactly 1..attempt; a row is open iff it is the last one of a
      RUNNING task; the lease holder is that row's worker; a success is recorded once, last, and only
      by a task that SUCCEEDED. */
  ghost predicate LedgerOk(t: Task, attempts: map<AttemptKey, AttemptRow>, id: TaskId) {
    && (forall n: nat :: Row(attempts, id, n).Some? <==> 1 <= n <= t.attempt)
    && (forall n: nat | 1 <= n <= t.attempt ::
          && (OutcomeAt(attempts, id, n).None? <==> n == t.attempt && t.state == Running)
          && (OutcomeAt(attempts, id, n) == Some(DidSucceed) <==> n == t.attempt && t.state == Succeeded))
    && (t.state in {Running, Succeeded} ==> t.attempt >= 1)
    && (t.state == Running ==> t.leaseWorker == Some(Row(attempts, id, t.attempt).value.worker))
  }

  /** The attempt budget: every attempt from max_attempts on that is over while the task goes on, the
      current one included when the task is QUEUED, was handed back. */
  ghost predicate BudgetOk(t: Task, attempts: map<AttemptKey, AttemptRow>, id: TaskId) {
    && t.maxAttempts >= 1
    && forall n: nat | t.maxAttempts <= n <= t.attempt && (n < t.attempt || t.state == Queued) ::
         OutcomeAt(attempts, id, n) == Some(WasAbandoned)
  }

  ghost predicate RowOk(t: Task) {
    && LeaseCoherent(t)
    && (t.result.Some? <==> t.state == Succeeded)
    && (t.attempt > 0 <==> t.firstStartedAt.Some?)
  }

  ghost predicate Sound(db: Db, id: TaskId)
    requires id in db.tasks
  {
    var t := db.tasks[id];
    && RowOk(t)
    && LedgerOk(t, db.attempts, id)
    && BudgetOk(t, db.attempts, id)
    && Replay(db.events, id) == At(t.state, t.attempt)
  }

  /** Every task is sound, and nothing refers to a task that does not exist. */
  ghost predicate Coherent(db: Db) {
    && (forall id <- db.tasks :: Sound(db, id))
    && (forall key <- db.attempts :: key.task in db.tasks)
    && (forall id: TaskId | id !in db.tasks :: Replay(db.events, id) == Blank)
  }

  // ---- how a run may change what is recorded --------------------------------------------------------------

  /** The columns fixed at submission. */
  predicate SameOrigin(a: Task, b: Task) {
    && a.tenant == b.tenant && a.taskType == b.taskType && a.payload == b.payload
    && a.idempotencyKey == b.idempotencyKey && a.priority == b.priority
    && a.maxAttempts == b.maxAttempts && a.maxExecutionTime == b.maxExecutionTime
    && a.agentVersion == b.agentVersion && a.requiredCapabilities == b.requiredCapabilities
    && a.capabilityKey == b.capabilityKey && a.createdAt == b.createdAt
  }

  predicate RowForward(a: Task, b: Task) {
    && SameOrigin(a, b)
    && a.attempt <= b.attempt
    && (a.state in TERMINAL ==> a == b)
    && (a.firstStartedAt.Some? ==> b.firstStartedAt == a.firstStartedAt)
    && (a.cancelRequested ==> b.cancelRequested)
  }

  predicate AttemptForward(a: AttemptRow, b: AttemptRow) {
    a.worker == b.worker && a.startedAt == b.startedAt && (a.outcome.Some? ==> a == b)
  }

  /** History is only ever added to: rows stay, terminal rows and closed attempts are frozen, the
      event log and the clock only grow. */
  ghost predicate Forward(a: Db, b: Db) {
    && a.now <= b.now && a.tenants.Keys <= b.tenants.Keys
    && (forall id <- a.tenants :: b.tenants[id] == a.tenants[id])
    && (forall id <- a.tasks :: id in b.tasks && RowForward(a.tasks[id], b.tasks[id]))
    && (forall key <- a.attempts :: key in b.attempts && AttemptForward(a.attempts[key], b.attempts[key]))
    && a.events <= b.events
  }

  lemma ForwardTransitive(a: Db, b: Db, c: Db)
    requires Forward(a, b) && Forward(b, c)
    ensures Forward(a, c)
  {}

  // ---- the moves ------------------------------------------------------------------------------------------

  /** A step that rewrites one row, attempt rows of that task, and appends events of that task. */
  ghost predicate TouchesOnly(a: Db, b: Db, id: TaskId, t: Task) {
    && id in a.tasks && b.tasks == a.tasks[id := t] && TouchesBeside(a, b, id)
  }

  ghost predicate TouchesBeside(a: Db, b: Db, id: TaskId) {
    && b.now == a.now && b.tenants == a.tenants
    && a.events <= b.events && (forall i | |a.events| <= i < |b.events| :: b.events[i].task == id)
    && (forall key: AttemptKey | key.task != id ::
          (key in a.attempts <==> key in b.attempts) && (key in a.attempts ==> a.attempts[key] == b.attempts[key]))
  }

  lemma {:induction false} ReplayOfOthers(events: seq<Event>, n: nat, id: TaskId)
    requires n <= |events| && forall i | n <= i < |events| :: events[i].task != id
    ensures Replay(events, id) == Replay(events[..n], id)
    decreases |events|
  {
    if n == |events| {
      assert events[..n] == events;
    } else {
      ReplayOfOthers(events[..|events| - 1], n, id);
      assert events[..|events| - 1][..n] == events[..n];
    }
  }

  lemma LedgerFrame(t: Task, a: map<AttemptKey, AttemptRow>, b: map<AttemptKey, AttemptRow>, id: TaskId)
    requires forall n: nat :: Row(a, id, n) == Row(b, id, n)
    requires LedgerOk(t, a, id) && BudgetOk(t, a, id)
    ensures LedgerOk(t, b, id) && BudgetOk(t, b, id)
  {
    forall n: nat ensures OutcomeAt(a, id, n) == OutcomeAt(b, id, n) {
      assert Row(a, id, n) == Row(b, id, n);
    }
  }

  lemma OthersStaySound(a: Db, b: Db, id: TaskId, other: TaskId)
    requires TouchesBeside(a, b, id) && other != id
    requires other in a.tasks && other in b.tasks && b.tasks[other] == a.tasks[other] && Sound(a, other)
    ensures Sound(b, other)
  {
    ReplayOfOthers(b.events, |a.events|, other);
    assert b.events[..|a.events|] == a.events;
    forall n: nat ensures Row(a.attempts, other, n) == Row(b.attempts, other, n) {
      assert AttemptKey(other, n).task != id;
    }
    LedgerFrame(a.tasks[other], a.attempts, b.attempts, other);
  }

  lemma EventsOfTask(a: Db, b: Db, id: TaskId, more: seq<Event>)
    requires b.events == a.events + more && forall e <- more :: e.task == id
    ensures a.events <= b.events && forall i | |a.events| <= i < |b.events| :: b.events[i].task == id
  {
    forall i | |a.events| <= i < |b.events| ensures b.events[i].task == id {
      assert b.events[i] == more[i - |a.events|];
    }
  }

  lemma TouchForward(a: Db, b: Db, id: TaskId, t: Task)
    requires TouchesOnly(a, b, id, t) && RowForward(a.tasks[id], t)
    requires forall key | key in a.attempts && key.task == id :: key in b.attempts && AttemptForward(a.attempts[key], b.attempts[key])
    ensures Forward(a, b)
  {}

  /** If one row is touched and stays sound, the database stays coherent. */
  lemma TouchCoherent(a: Db, b: Db, id: TaskId, t: Task)
    requires Coherent(a) && TouchesOnly(a, b, id, t) && Sound(b, id)
    ensures Coherent(b)
  {
    forall other | other in b.tasks && other != id ensures Sound(b, other) {
      OthersStaySound(a, b, id, other);
    }
    forall other: TaskId | other !in b.tasks ensures Replay(b.events, other) == Blank {
      ReplayOfOthers(b.events, |a.events|, other);
      assert b.events[..|a.events|] == a.events;
    }
    forall key | key in b.attempts ensures key.task in b.tasks {
      if key.task != id { assert key in a.attempts; }
    }
  }

  /** The row of attempt n gets its outcome: the ledger and the budget after the end of an attempt. */
  lemma LedgerEnds(t0: Task, t: Task, a: map<AttemptKey, AttemptRow>, id: TaskId, outcome: Outcome, error: Option<string>, now: Time)
    requires LedgerOk(t0, a, id) && BudgetOk(t0, a, id) && t0.state == Running
    requires t.attempt == t0.attempt && t.maxAttempts == t0.maxAttempts && t.state != Running
    requires outcome == DidSucceed <==> t.state == Succeeded
    requires t.state == Queued ==> t.attempt < t.maxAttempts || outcome == WasAbandoned
    ensures var b := Finished(a, AttemptKey(id, t.attempt), outcome, error, now);
            LedgerOk(t, b, id) && BudgetOk(t, b, id)
  {
    var n := t.attempt;
    var b := Finished(a, AttemptKey(id, n), outcome, error, now);
    assert Row(a, id, n).Some?;
    assert forall m: nat | m != n :: Row(b, id, m) == Row(a, id, m) && OutcomeAt(b, id, m) == OutcomeAt(a, id, m);
    assert OutcomeAt(b, id, n) == Some(outcome) && OutcomeAt(a, id, n).None?;
  }

  lemma ReplayWithNotes(events: seq<Event>, e: Event, notes: seq<Event>, id: TaskId)
    requires |notes| <= 1 && forall n <- notes :: Announces(n.kind).None?
    ensures Replay(events + [e] + notes, id) == Replay(events + [e], id)
  {
    if notes == [] {
      assert events + [e] + notes == events + [e];
    } else {
      assert notes == [notes[0]];
      ReplaySnoc(events + [e], notes[0], id);
    }
  }

  /** The end of an attempt, whoever ends it: RUNNING moves to `t.state`, the open attempt row gets
      its outcome, and the announcing event is written, perhaps with a note beside it. */
  lemma EndAttempt(a: Db, b: Db, id: TaskId, t: Task, outcome: Outcome, error: Option<string>, e: Event, notes: seq<Event>)
    requires Coherent(a) && id in a.tasks && a.tasks[id].state == Running
    requires RowForward(a.tasks[id], t) && t.attempt == a.tasks[id].attempt
    requires t.firstStartedAt == a.tasks[id].firstStartedAt
    requires t.state != Running && t.leaseWorker.None? && t.leaseExpiresAt.None?
    requires t.result.Some? <==> t.state == Succeeded
    requires outcome == DidSucceed <==> t.state == Succeeded
    requires t.state == Queued ==> t.attempt < t.maxAttempts || outcome == WasAbandoned
    requires e.task == id && Announces(e.kind) == Some(t.state) && e.attempt == Some(t.attempt)
    requires |notes| <= 1 && forall n <- notes :: n.task == id && Announces(n.kind).None?
    requires b == a.(tasks := a.tasks[id := t], events := a.events + [e] + notes,
                     attempts := Finished(a.attempts, AttemptKey(id, t.attempt), outcome, error, a.now))
    ensures Coherent(b) && Forward(a, b)
  {
    LedgerEnds(a.tasks[id], t, a.attempts, id, outcome, error, a.now);
    ReplaySnoc(a.events, e, id);
    ReplayWithNotes(a.events, e, notes, id);
    assert OutcomeAt(a.attempts, id, t.attempt).None?;
    EventsOfTask(a, b, id, [e] + notes);
    TouchForward(a, b, id, t);
    TouchCoherent(a, b, id, t);
  }

  lemma LedgerGrants(t0: Task, a: map<AttemptKey, AttemptRow>, id: TaskId, worker: WorkerId, ttl: nat, now: Time)
    requires LedgerOk(t0, a, id) && BudgetOk(t0, a, id) && t0.state == Queued
    ensures var t := GrantedRow(t0, worker, ttl, now);
            var b := a[AttemptKey(id, t.attempt) := AttemptRow(worker, now, None, None, None)];
            Row(a, id, t.attempt).None? && LedgerOk(t, b, id) && BudgetOk(t, b, id)
  {
    var t := GrantedRow(t0, worker, ttl, now);
    var b := a[AttemptKey(id, t.attempt) := AttemptRow(worker, now, None, None, None)];
    assert forall m: nat | m != t.attempt :: Row(b, id, m) == Row(a, id, m) && OutcomeAt(b, id, m) == OutcomeAt(a, id, m);
    assert OutcomeAt(b, id, t.attempt).None?;
  }

  /** A grant: QUEUED becomes RUNNING under a new attempt number, with a new open attempt row. The
      primary key of task_attempts is free. */
  lemma GrantCoherent(a: Db, id: TaskId, worker: WorkerId, ttl: nat)
    requires Coherent(a) && id in a.tasks && a.tasks[id].state == Queued
    ensures AttemptKey(id, a.tasks[id].attempt + 1) !in a.attempts
    ensures Coherent(Grant(a, id, worker, ttl)) && Forward(a, Grant(a, id, worker, ttl))
  {
    var b := Grant(a, id, worker, ttl);
    var e := Event(id, Some(b.tasks[id].attempt), TaskClaimed, Some(worker));
    assert Sound(a, id);
    LedgerGrants(a.tasks[id], a.attempts, id, worker, ttl, a.now);
    ReplaySnoc(a.events, e, id);
    EventsOfTask(a, b, id, [e]);
    TouchForward(a, b, id, b.tasks[id]);
    TouchCoherent(a, b, id, b.tasks[id]);
  }

  lemma CancelledSound(a: Db, b: Db, id: TaskId, t: Task)
    requires id in a.tasks && id in b.tasks && Sound(a, id) && a.tasks[id].state == Queued
    requires t == a.tasks[id].(state := Cancelled, cancelRequested := true, finishedAt := t.finishedAt, errorClass := t.errorClass)
    requires b.tasks[id] == t && b.attempts == a.attempts && Replay(b.events, id) == At(Cancelled, t.attempt)
    ensures Sound(b, id)
  {}

  /** A QUEUED row is cancelled outright. */
  lemma CancelQueued(a: Db, b: Db, id: TaskId, t: Task, e: Event)
    requires Coherent(a) && id in a.tasks && a.tasks[id].state == Queued
    requires t == a.tasks[id].(state := Cancelled, cancelRequested := true, finishedAt := t.finishedAt, errorClass := t.errorClass)
    requires e.task == id && e.kind == TaskCancelled && e.attempt == Some(t.attempt)
    requires b == a.(tasks := a.tasks[id := t], events := a.events + [e])
    ensures Coherent(b) && Forward(a, b)
  {
    assert Sound(a, id);
    ReplaySnoc(a.events, e, id);
    CancelledSound(a, b, id, t);
    EventsOfTask(a, b, id, [e]);
    TouchForward(a, b, id, t);
    TouchCoherent(a, b, id, t);
  }

  /** Anything that leaves state, attempt, ownership and result alone: a renewal, a cancel flag, a note. */
  lemma MarkCoherent(a: Db, b: Db, id: TaskId, t: Task, notes: seq<Event>)
    requires Coherent(a) && id in a.tasks && (a.tasks[id].state in TERMINAL ==> t == a.tasks[id])
    requires t == a.tasks[id].(leaseExpiresAt := t.leaseExpiresAt, cancelRequested := t.cancelRequested)
    requires a.tasks[id].cancelRequested ==> t.cancelRequested
    requires t.leaseExpiresAt.Some? <==> a.tasks[id].leaseExpiresAt.Some?
    requires |notes| <= 1 && forall n <- notes :: n.task == id && Announces(n.kind).None?
    requires b == a.(tasks := a.tasks[id := t], events := a.events + notes)
    ensures Coherent(b) && Forward(a, b)
  {
    if notes == [] {
      assert b.events == a.events;
    } else {
      assert notes == [notes[0]];
      ReplaySnoc(a.events, notes[0], id);
    }
    EventsOfTask(a, b, id, notes);
    TouchForward(a, b, id, t);
    TouchCoherent(a, b, id, t);
  }
}
