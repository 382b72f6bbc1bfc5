/** What each call but the worker's reports leaves behind, column by column, said from the request and the
    stored columns alone. */
module Effects {
  import opened Wrappers
  import opened Orders
  import opened States
  import opened Tables
  import opened Agents
  import opened Transitions
  import opened Completion
  import opened Claim
  import opened Rounds
  import opened Grants
  import opened Reap
  import opened Tasks
  import opened Ledger
  import opened Protocol
  import opened Moves
  import opened Timing

  // ---- src/acp/api/routes/tasks.py, `_submit` ------------------------------------------------------------

  /** A created task carries the request: every column is the one asked for, and it waits for the time asked
      for, or for nothing. Nothing else changes but the log. */
  lemma CreatedRow(db: Db, r: Request, id: TaskId, env: Ambient, after: Db, res: Submitted)
    requires ApiOutcome(db, r, id, env, after, res) && res.Created?
    ensures res.id == id && id !in db.tasks && id in after.tasks
    ensures after == db.(tasks := db.tasks[id := after.tasks[id]], events := db.events + [Event(id, Some(0), TaskCreated, None)])
    ensures var t := after.tasks[id];
      && t.tenant == r.tenant && t.taskType == r.taskType && t.idempotencyKey == r.idempotencyKey
      && t.priority == r.priority && t.maxAttempts == r.maxAttempts && t.maxExecutionTime == r.maxExecutionTime
      && t.agentVersion == r.agentVersion && t.requiredCapabilities == r.requiredCapabilities
      && t.capabilityKey == CapabilityKey(r.requiredCapabilities)
      && t.payload - {"_trace"} == r.payload - {"_trace"}
      && (env.carrier.Some? ==> "_trace" in t.payload && t.payload["_trace"] == env.carrier.value)
      && (env.carrier.None? ==> t.payload == r.payload)
    ensures var t := after.tasks[id];
      && (r.availableAt.Some? ==> t.availableAt == r.availableAt.value) && (r.availableAt.None? ==> t.availableAt == db.now)
      && t.state == Queued && t.attempt == 0 && !t.cancelRequested && t.createdAt == db.now
      && t.leaseWorker.None? && t.leaseExpiresAt.None? && t.result.None? && t.errorClass.None?
      && t.firstStartedAt.None? && t.finishedAt.None?
  {
    assert db.tasks[id := NewTask(Traced(r, env), db.now)][id] == NewTask(Traced(r, env), db.now);
    TraceIsIgnored(r, env);
  }

  /** How many tasks of a tenant wait. */
  function QueuedCount(db: Db, tenant: TenantId): nat {
    |set id | id in db.tasks && db.tasks[id].tenant == tenant && db.tasks[id].state == Queued|
  }

  /** Room for one more, for the tenant and for the system as the process knows it. */
  predicate HasRoom(db: Db, tenant: TenantId, env: Ambient) {
    && tenant in db.tenants && QueuedCount(db, tenant) < db.tenants[tenant].maxQueued
    && (env.shedThreshold == 0 || env.globalQueued < env.shedThreshold)
  }

  /** A task of the same tenant under the request's key. */
  predicate HasKeyOf(db: Db, r: Request, other: TaskId) {
    && other in db.tasks && r.idempotencyKey.Some?
    && db.tasks[other].tenant == r.tenant && db.tasks[other].idempotencyKey == r.idempotencyKey
  }

  predicate WellFormed(db: Db, r: Request, id: TaskId) {
    r.maxAttempts > 0 && r.maxExecutionTime > 0 && id !in db.tasks
  }

  lemma VerdictIs(db: Db, tenant: TenantId, env: Ambient)
    requires tenant in db.tenants
    ensures var full := QueuedCount(db, tenant) >= db.tenants[tenant].maxQueued;
      && (Verdict(db, tenant, env) == RejectTenantBacklog <==> full)
      && (Verdict(db, tenant, env) == ShedOverloaded <==> !full && 0 < env.shedThreshold <= env.globalQueued)
  {
    assert QueuedSet(db.tasks, tenant) == set id | id in db.tasks && db.tasks[id].tenant == tenant && db.tasks[id].state == Queued;
  }

  /** The answers of the insert alone. */
  lemma InsertAnswerIff(db: Db, r: Request, id: TaskId, after: Db, res: Submitted)
    requires SubmitOutcome(db, r, id, after, res)
    ensures res.ConstraintViolation? <==> !(r.maxAttempts > 0 && r.maxExecutionTime > 0 && r.tenant in db.tenants && id !in db.tasks)
    ensures res.Created? <==>
              r.tenant in db.tenants && WellFormed(db, r, id) && forall other <- db.tasks :: !HasKeyOf(db, r, other)
    ensures res.Created? || res.ConstraintViolation? || res.Existing? || res.PayloadMismatch?
  {
    KeyIsListed(db, r);
  }

  /** Every answer of a submission, by the condition for it. */
  lemma AnswerIff(db: Db, r: Request, id: TaskId, env: Ambient, after: Db, res: Submitted)
    requires ApiOutcome(db, r, id, env, after, res)
    ensures res.UnknownTenant? <==> r.tenant !in db.tenants
    ensures res.QuotaExceeded? <==> r.tenant in db.tenants && QueuedCount(db, r.tenant) >= db.tenants[r.tenant].maxQueued
    ensures res.Overloaded? <==>
              r.tenant in db.tenants && QueuedCount(db, r.tenant) < db.tenants[r.tenant].maxQueued
              && 0 < env.shedThreshold <= env.globalQueued
    ensures res.ConstraintViolation? <==> HasRoom(db, r.tenant, env) && !WellFormed(db, r, id)
    ensures res.Created? <==>
              HasRoom(db, r.tenant, env) && WellFormed(db, r, id) && forall other <- db.tasks :: !HasKeyOf(db, r, other)
    ensures res.Existing? ==>
              HasKeyOf(db, r, res.id) && db.tasks[res.id].payload - {"_trace"} == r.payload - {"_trace"}
    ensures res.PayloadMismatch? ==>
              HasKeyOf(db, r, res.id) && db.tasks[res.id].payload - {"_trace"} != r.payload - {"_trace"}
    ensures !res.Created? ==> after == db
  {
    if r.tenant in db.tenants { VerdictIs(db, r.tenant, env); }
    TraceIsIgnored(r, env);
    KeyIsListed(db, r);
  }

  lemma KeyIsListed(db: Db, r: Request)
    ensures forall other :: other in SameKey(db.tasks, r.tenant, r.idempotencyKey) <==> HasKeyOf(db, r, other)
  {}

  // ---- src/acp/db/queries/claim.py, the grant --------------------------------------------------------------

  /** A claim, in columns: each claimed row is RUNNING under the worker, one attempt further, for the time of
      the lease, its first start kept; it gets its attempt row and its event; nothing else changes. */
  lemma ClaimedRows(db: Db, worker: WorkerId, limit: nat, ttl: nat, caps: seq<string>, locked: set<TaskId>, rounds: nat, id: TaskId)
    requires Coherent(db) && id in db.tasks
    ensures var after := Apply(db, Claiming(worker, limit, ttl, caps, locked, rounds));
      && id in after.tasks
      && (id !in ClaimWithin(db, caps, limit, locked, rounds) ==> after.tasks[id] == db.tasks[id])
      && (id in ClaimWithin(db, caps, limit, locked, rounds) ==> IsGranted(db.tasks[id], after.tasks[id], worker, ttl, db.now))
  {
    GrantedOrNot(db, worker, limit, ttl, caps, locked, rounds, id);
    GrantedIs(db.tasks[id], worker, ttl, db.now);
  }

  lemma GrantedOrNot(db: Db, worker: WorkerId, limit: nat, ttl: nat, caps: seq<string>, locked: set<TaskId>, rounds: nat, id: TaskId)
    requires Coherent(db) && id in db.tasks
    ensures var after := Apply(db, Claiming(worker, limit, ttl, caps, locked, rounds)).tasks;
      && id in after
      && after[id] == if id in ClaimWithin(db, caps, limit, locked, rounds)
                      then GrantedRow(db.tasks[id], worker, ttl, db.now) else db.tasks[id]
  {
    ClaimIsGrant(db, Claiming(worker, limit, ttl, caps, locked, rounds));
    GrantAllEffect(db, ClaimWithin(db, caps, limit, locked, rounds), worker, ttl);
  }

  lemma GrantedIs(t: Task, worker: WorkerId, ttl: nat, now: Time)
    ensures IsGranted(t, GrantedRow(t, worker, ttl, now), worker, ttl, now)
  {}

  predicate IsGranted(t: Task, t': Task, worker: WorkerId, ttl: nat, now: Time) {
    && t' == t.(state := Running, attempt := t'.attempt, leaseWorker := Some(worker), leaseExpiresAt := t'.leaseExpiresAt,
                firstStartedAt := t'.firstStartedAt)
    && t'.attempt == t.attempt + 1
    && t'.leaseExpiresAt.Some? && t'.leaseExpiresAt.value == now + ttl * 1000000
    && t'.firstStartedAt == if t.firstStartedAt.None? then Some(now) else t.firstStartedAt
  }

  /** The attempt rows after a claim: the old ones, and an open one for each claimed row. */
  lemma ClaimedAttempts(db: Db, worker: WorkerId, limit: nat, ttl: nat, caps: seq<string>, locked: set<TaskId>, rounds: nat,
                        key: AttemptKey)
    requires Coherent(db)
    ensures var after := Apply(db, Claiming(worker, limit, ttl, caps, locked, rounds)).attempts;
            var isNew := key.task in db.tasks && key.task in ClaimWithin(db, caps, limit, locked, rounds)
                         && key.attempt == db.tasks[key.task].attempt + 1;
      && (key in db.attempts ==> !isNew && key in after && after[key] == db.attempts[key])
      && (isNew ==> key in after && after[key] == AttemptRow(worker, db.now, None, None, None))
      && (key in after ==> isNew || key in db.attempts)
  {
    var ids := ClaimWithin(db, caps, limit, locked, rounds);
    ClaimIsGrant(db, Claiming(worker, limit, ttl, caps, locked, rounds));
    NeverDuplicate(db, worker, limit, ttl, caps, locked, rounds);
    GrantedAttempts(db, ids, |ids|, worker, ttl, key);
    assert ids[..|ids|] == ids;
  }

  lemma NeverDuplicate(db: Db, worker: WorkerId, limit: nat, ttl: nat, caps: seq<string>, locked: set<TaskId>, rounds: nat)
    requires Coherent(db)
    ensures !Duplicate(db, ClaimWithin(db, caps, limit, locked, rounds))
  {
    ClaimCoherent(db, worker, limit, ttl, caps, locked, rounds);
    NoDuplicates(db, ClaimWithin(db, caps, limit, locked, rounds));
  }

  lemma NextAttemptRow(db: Db, ids: seq<TaskId>, k: nat, worker: WorkerId, ttl: nat)
    requires Distinct(ids) && (forall id <- ids :: id in db.tasks) && k < |ids| && !Duplicate(db, ids)
    ensures var key := AttemptKey(ids[k], db.tasks[ids[k]].attempt + 1);
      && key !in db.attempts
      && GrantAll(db, ids[..k + 1], worker, ttl).attempts
         == GrantAll(db, ids[..k], worker, ttl).attempts[key := AttemptRow(worker, db.now, None, None, None)]
  {
    GrantStep(db, ids, k, worker, ttl);
    assert ids[k] in ids;
  }

  /** The attempt rows of a table after the listed tasks were granted, at one key. */
  ghost predicate RowsAdded(db: Db, after: map<AttemptKey, AttemptRow>, ids: seq<TaskId>, worker: WorkerId, key: AttemptKey) {
    var isNew := key.task in db.tasks && key.task in ids && key.attempt == db.tasks[key.task].attempt + 1;
    && (key in db.attempts ==> !isNew && key in after && after[key] == db.attempts[key])
    && (isNew ==> key in after && after[key] == AttemptRow(worker, db.now, None, None, None))
    && (key in after ==> isNew || key in db.attempts)
  }

  lemma RowsAddedSnoc(db: Db, before: map<AttemptKey, AttemptRow>, front: seq<TaskId>, last: TaskId, worker: WorkerId, key: AttemptKey)
    requires last in db.tasks && RowsAdded(db, before, front, worker, key)
    requires AttemptKey(last, db.tasks[last].attempt + 1) !in db.attempts
    ensures RowsAdded(db, before[AttemptKey(last, db.tasks[last].attempt + 1) := AttemptRow(worker, db.now, None, None, None)],
                      front + [last], worker, key)
  {}

  lemma NextRowsAdded(db: Db, ids: seq<TaskId>, k: nat, worker: WorkerId, ttl: nat, key: AttemptKey)
    requires Distinct(ids) && (forall id <- ids :: id in db.tasks) && !Duplicate(db, ids) && k < |ids|
    requires RowsAdded(db, GrantAll(db, ids[..k], worker, ttl).attempts, ids[..k], worker, key)
    ensures RowsAdded(db, GrantAll(db, ids[..k + 1], worker, ttl).attempts, ids[..k + 1], worker, key)
  {
    NextAttemptRow(db, ids, k, worker, ttl);
    RowsAddedSnoc(db, GrantAll(db, ids[..k], worker, ttl).attempts, ids[..k], ids[k], worker, key);
    assert ids[..k + 1] == ids[..k] + [ids[k]];
  }

  lemma {:induction false} GrantedAttempts(db: Db, ids: seq<TaskId>, k: nat, worker: WorkerId, ttl: nat, key: AttemptKey)
    requires Distinct(ids) && (forall id <- ids :: id in db.tasks) && !Duplicate(db, ids) && k <= |ids|
    ensures RowsAdded(db, GrantAll(db, ids[..k], worker, ttl).attempts, ids[..k], worker, key)
  {
    if k == 0 {
    } else {
      GrantedAttempts(db, ids, k - 1, worker, ttl, key);
      NextRowsAdded(db, ids, k - 1, worker, ttl, key);
    }
  }

  /** One event per claimed row, in the order of the rows. */
  ghost predicate AreClaims(tasks: map<TaskId, Task>, added: seq<Event>, ids: seq<TaskId>, worker: WorkerId) {
    && |added| == |ids|
    && forall i | 0 <= i < |ids| ::
         ids[i] in tasks && added[i] == Event(ids[i], Some(tasks[ids[i]].attempt + 1), TaskClaimed, Some(worker))
  }

  lemma {:induction false} GrantedEvents(db: Db, ids: seq<TaskId>, worker: WorkerId, ttl: nat) returns (added: seq<Event>)
    requires Distinct(ids) && forall id <- ids :: id in db.tasks
    ensures GrantAll(db, ids, worker, ttl).events == db.events + added && AreClaims(db.tasks, added, ids, worker)
  {
    if ids == [] {
      added := [];
    } else {
      var front := ids[..|ids| - 1];
      var before := GrantedEvents(db, front, worker, ttl);
      GrantStep(db, ids, |front|, worker, ttl);
      assert ids[..|front| + 1] == ids;
      added := before + [Event(ids[|front|], Some(db.tasks[ids[|front|]].attempt + 1), TaskClaimed, Some(worker))];
    }
  }

  /** The events of a claim, and all it leaves alone. */
  lemma ClaimedEvents(db: Db, worker: WorkerId, limit: nat, ttl: nat, caps: seq<string>, locked: set<TaskId>, rounds: nat)
    requires Coherent(db)
    ensures var after := Apply(db, Claiming(worker, limit, ttl, caps, locked, rounds));
      && after == db.(tasks := after.tasks, attempts := after.attempts, events := after.events)
      && after.tasks.Keys == db.tasks.Keys && db.events <= after.events
      && AreClaims(db.tasks, after.events[|db.events|..], ClaimWithin(db, caps, limit, locked, rounds), worker)
  {
    var ids := ClaimWithin(db, caps, limit, locked, rounds);
    ClaimCoherent(db, worker, limit, ttl, caps, locked, rounds);
    var added := GrantedEvents(db, ids, worker, ttl);
    assert (db.events + added)[|db.events|..] == added;
    GrantAllEffect(db, ids, worker, ttl);
  }

  // ---- src/acp/db/queries/lease.py ---------------------------------------------------------------------------

  /** The lease of this attempt is the worker's, and has not run out. */
  predicate IsLeased(db: Db, id: TaskId, attempt: nat, worker: WorkerId) {
    id in db.tasks &&
    var t := db.tasks[id];
    && t.state == Running && t.attempt == attempt && t.leaseWorker.Some? && t.leaseWorker.value == worker
    && t.leaseExpiresAt.Some? && db.now < t.leaseExpiresAt.value
  }

  /** A renewal moves one column of one row, and answers with the row's request flag; refused, it changes
      nothing. */
  lemma RenewalEffect(db: Db, id: TaskId, attempt: nat, worker: WorkerId, ttl: nat)
    ensures var (after, answer) := Renew(db, id, attempt, worker, ttl);
      if IsLeased(db, id, attempt, worker) then
        && id in after.tasks && after == db.(tasks := db.tasks[id := after.tasks[id]])
        && after.tasks[id] == db.tasks[id].(leaseExpiresAt := after.tasks[id].leaseExpiresAt)
        && after.tasks[id].leaseExpiresAt.Some? && after.tasks[id].leaseExpiresAt.value == db.now + ttl * 1000000
        && answer.Some? && answer.value == db.tasks[id].cancelRequested
      else after == db && answer.None?
  {
    assert Renewable(db, id, attempt, worker) <==> IsLeased(db, id, attempt, worker);
  }

  // ---- src/acp/db/queries/reap.py ------------------------------------------------------------------------------

  /** Past its lease, or past its execution cap counted from its first start. */
  predicate IsOverdue(t: Task, phase: Phase, now: Time) {
    t.state == Running &&
    match phase
    case LeasePhase => t.leaseExpiresAt.Some? && t.leaseExpiresAt.value < now
    case HungPhase => t.firstStartedAt.Some? && t.firstStartedAt.value + t.maxExecutionTime * 1000000 < now
  }

  predicate IsRecovered(t: Task, t': Task, now: Time, error: string) {
    if t.attempt < t.maxAttempts
    then t' == t.(state := Queued, availableAt := now, leaseWorker := None, leaseExpiresAt := None, errorClass := Some(error))
    else t' == t.(state := Failed, finishedAt := Some(now), leaseWorker := None, leaseExpiresAt := None, errorClass := Some(error))
  }

  /** A recovery takes an overdue task from its worker: requeued for now while the budget lasts, else FAILED;
      the attempt is LOST; the announcement names no worker and the note after it names the one that lost
      the lease. A task that is not overdue is not touched. */
  lemma RecoveryEffect(db: Db, phase: Phase, id: TaskId, error: string)
    requires error == if phase == LeasePhase then "LeaseExpired" else "ExecutionTimeExceeded"
    ensures var after := Apply(db, Recovery(phase, id));
      if id in db.tasks && IsOverdue(db.tasks[id], phase, db.now) then
        var t := db.tasks[id]; var key := AttemptKey(id, t.attempt);
        && id in after.tasks && IsRecovered(t, after.tasks[id], db.now, error)
        && after == db.(tasks := db.tasks[id := after.tasks[id]], attempts := after.attempts, events := after.events)
        && after.events == db.events + [Event(id, Some(t.attempt), if t.attempt < t.maxAttempts then TaskRecovered else TaskFailed, None),
                                        Event(id, Some(t.attempt), WorkerLost, t.leaseWorker)]
        && after.attempts == (if key in db.attempts then db.attempts[key := AttemptRow(db.attempts[key].worker,
             db.attempts[key].startedAt, Some(db.now), Some(WasLost), Some(error))] else db.attempts)
      else after == db
  {
    ReapOneShape(db, phase, id);
    if id in db.tasks {
      assert Overdue(db.tasks[id], phase, db.now) <==> IsOverdue(db.tasks[id], phase, db.now);
    }
  }

  // ---- src/acp/db/queries/tasks.py, cancellation ------------------------------------------------------------------

  /** A cancellation by the state it finds: the answer, the row and the event. */
  lemma CancellationEffect(db: Db, id: TaskId)
    ensures var (after, answer) := CancelTo(db, id);
      && (answer == CancelNotFound <==> id !in db.tasks)
      && (answer == CancelledNow <==> id in db.tasks && db.tasks[id].state == Queued)
      && (answer == AlreadyCancelled <==> id in db.tasks && db.tasks[id].state == Cancelled)
      && (answer == AlreadyTerminal <==> id in db.tasks && (db.tasks[id].state == Succeeded || db.tasks[id].state == Failed))
      && (answer == Requested <==> id in db.tasks && db.tasks[id].state == Running && !db.tasks[id].cancelRequested)
      && (answer == AlreadyRequested <==> id in db.tasks && db.tasks[id].state == Running && db.tasks[id].cancelRequested)
      && (answer != CancelledNow && answer != Requested ==> after == db)
    ensures var (after, answer) := CancelTo(db, id);
      && (answer == CancelledNow ==>
            && after == db.(
                 tasks := db.tasks[id := db.tasks[id].(state := Cancelled, cancelRequested := true, finishedAt := Some(db.now))],
                 events := after.events)
            && after.events == db.events + [Event(id, Some(db.tasks[id].attempt), TaskCancelled,
                 if db.tasks[id].leaseWorker == Some("") then None else db.tasks[id].leaseWorker)])
      && (answer == Requested ==> after == db.(
            tasks := db.tasks[id := db.tasks[id].(cancelRequested := true)],
            events := db.events + [Event(id, Some(db.tasks[id].attempt), CancelRequested, None)]))
  {
    CancelShape(db, id);
  }

  // ---- cancelling an agent's work -----------------------------------------------------------------------------------

  /** An agent's work is ended where it waits and flagged where it runs; every other task stays as it is,
      those of other agents and of none among them. */
  lemma AgentSweepRows(db: Db, versions: set<VersionId>, id: TaskId)
    requires id in db.tasks
    ensures var t := db.tasks[id]; var after := CancelAgentTo(db, versions).tasks;
      && id in after
      && (t.agentVersion.None? || t.agentVersion.value !in versions ==> after[id] == t)
      && (t.agentVersion.Some? && t.agentVersion.value in versions ==>
            && (t.state == Queued ==> after[id] == t.(state := Cancelled, cancelRequested := true, finishedAt := Some(db.now),
                                                      errorClass := Some("AgentDisabled")))
            && (t.state == Running ==> after[id] == t.(cancelRequested := true))
            && (t.state != Queued && t.state != Running ==> after[id] == t))
  {
    AgentSweepMoves(db, versions);
  }

  /** The events of a list of rows, one each. */
  function Notices(tasks: map<TaskId, Task>, ids: seq<TaskId>, kind: EventType): seq<Event> {
    seq(|ids|, i requires 0 <= i < |ids| =>
      Event(ids[i], Some(if ids[i] in tasks then tasks[ids[i]].attempt else 0), kind, None))
  }

  lemma NoticesSnoc(tasks: map<TaskId, Task>, ids: seq<TaskId>, kind: EventType)
    requires ids != [] && ids[|ids| - 1] in tasks
    ensures Notices(tasks, ids, kind) == Notices(tasks, ids[..|ids| - 1], kind)
              + [Event(ids[|ids| - 1], Some(tasks[ids[|ids| - 1]].attempt), kind, None)]
  {}

  lemma {:induction false} QueuedSwept(db: Db, ids: seq<TaskId>)
    requires Distinct(ids) && forall id <- ids :: id in db.tasks
    ensures var after := SweepQueued(db, ids);
      after == db.(tasks := after.tasks, events := db.events + Notices(db.tasks, ids, TaskCancelled))
  {
    if ids == [] {
    } else {
      var front, last := ids[..|ids| - 1], ids[|ids| - 1];
      FrontAndLast(ids);
      QueuedSwept(db, front);
      SweepQueuedEffect(db, front);
      assert last !in front;
      NoticesSnoc(db.tasks, ids, TaskCancelled);
    }
  }

  lemma {:induction false} RunningSwept(db: Db, ids: seq<TaskId>)
    requires forall id <- ids :: id in db.tasks
    ensures var after := SweepRunning(db, ids);
      after == db.(tasks := after.tasks, events := db.events + Notices(db.tasks, ids, CancelRequested))
  {
    if ids == [] {
    } else {
      var front, last := ids[..|ids| - 1], ids[|ids| - 1];
      RunningSwept(db, front);
      SweepRunningEffect(db, front);
      NoticesSnoc(db.tasks, ids, CancelRequested);
    }
  }

  lemma SweepParts(db: Db, versions: set<VersionId>, queued: seq<TaskId>, running: seq<TaskId>)
    requires queued == InOrder(AgentQueued(db.tasks, versions)) && running == InOrder(AgentRunning(db.tasks, versions))
    ensures var after := CancelAgentTo(db, versions);
      after == db.(tasks := after.tasks,
                   events := db.events + Notices(db.tasks, queued, TaskCancelled) + Notices(db.tasks, running, CancelRequested))
  {
    InOrderFacts(AgentQueued(db.tasks, versions));
    InOrderFacts(AgentRunning(db.tasks, versions));
    QueuedSwept(db, queued);
    SweepQueuedEffect(db, queued);
    var mid := SweepQueued(db, queued);
    RunningSwept(mid, running);
    assert forall id <- running :: id in db.tasks && id !in queued;
    SameNotices(db.tasks, mid.tasks, running, CancelRequested);
  }

  lemma SameNotices(a: map<TaskId, Task>, b: map<TaskId, Task>, ids: seq<TaskId>, kind: EventType)
    requires forall id <- ids :: id in a && id in b && b[id] == a[id]
    ensures Notices(b, ids, kind) == Notices(a, ids, kind)
  {}

  /** One event of a sweep, by the row it is about. */
  predicate IsNotice(db: Db, after: Db, e: Event) {
    && e.task in db.tasks && e.task in after.tasks && after.tasks[e.task] != db.tasks[e.task]
    && e.attempt == Some(db.tasks[e.task].attempt) && e.worker.None?
    && e.kind == if db.tasks[e.task].state == Queued then TaskCancelled else CancelRequested
  }

  /** Notices about different rows, each of which changed. */
  ghost predicate AreNotices(db: Db, after: Db, added: seq<Event>) {
    && (forall e <- added :: IsNotice(db, after, e))
    && (forall i, j | 0 <= i < j < |added| :: added[i].task != added[j].task)
  }

  lemma ChangedRows(db: Db, versions: set<VersionId>)
    ensures var after := CancelAgentTo(db, versions).tasks;
      && after.Keys == db.tasks.Keys
      && forall id <- db.tasks ::
           after[id] != db.tasks[id] <==> id in AgentQueued(db.tasks, versions) || id in AgentRunning(db.tasks, versions)
  {
    AgentSweepMoves(db, versions);
  }

  lemma NoticesOf(db: Db, after: Db, ids: seq<TaskId>, kind: EventType)
    requires Distinct(ids)
    requires forall id <- ids :: id in db.tasks && id in after.tasks && after.tasks[id] != db.tasks[id]
    requires forall id <- ids :: id in db.tasks && kind == if db.tasks[id].state == Queued then TaskCancelled else CancelRequested
    ensures AreNotices(db, after, Notices(db.tasks, ids, kind))
  {}

  lemma JoinedNotices(db: Db, after: Db, a: seq<Event>, b: seq<Event>)
    requires AreNotices(db, after, a) && AreNotices(db, after, b)
    requires forall e <- a, f <- b :: e.task != f.task
    ensures AreNotices(db, after, a + b)
  {}

  lemma SweepNotices(db: Db, versions: set<VersionId>, queued: seq<TaskId>, running: seq<TaskId>)
    requires queued == InOrder(AgentQueued(db.tasks, versions)) && running == InOrder(AgentRunning(db.tasks, versions))
    ensures AreNotices(db, CancelAgentTo(db, versions),
                       Notices(db.tasks, queued, TaskCancelled) + Notices(db.tasks, running, CancelRequested))
  {
    InOrderFacts(AgentQueued(db.tasks, versions));
    InOrderFacts(AgentRunning(db.tasks, versions));
    ChangedRows(db, versions);
    NoticesOf(db, CancelAgentTo(db, versions), queued, TaskCancelled);
    NoticesOf(db, CancelAgentTo(db, versions), running, CancelRequested);
    JoinedNotices(db, CancelAgentTo(db, versions), Notices(db.tasks, queued, TaskCancelled), Notices(db.tasks, running, CancelRequested));
  }

  lemma DisjointSizes(changed: set<TaskId>, a: set<TaskId>, b: set<TaskId>)
    requires a !! b && forall id :: id in changed <==> id in a || id in b
    ensures |changed| == |a| + |b|
  {
    assert changed == a + b;
  }

  /** The rows that differ between two tables of the same tasks. */
  function Changed(a: map<TaskId, Task>, b: map<TaskId, Task>): set<TaskId> {
    set id | id in a && id in b && b[id] != a[id]
  }

  lemma ChangedCount(db: Db, versions: set<VersionId>)
    ensures |Changed(db.tasks, CancelAgentTo(db, versions).tasks)|
            == |AgentQueued(db.tasks, versions)| + |AgentRunning(db.tasks, versions)|
  {
    ChangedRows(db, versions);
    DisjointSizes(Changed(db.tasks, CancelAgentTo(db, versions).tasks), AgentQueued(db.tasks, versions), AgentRunning(db.tasks, versions));
  }

  lemma AddedEvents(db: Db, after: Db, a: seq<Event>, b: seq<Event>)
    requires after == db.(tasks := after.tasks, events := db.events + a + b) && AreNotices(db, after, a + b)
    ensures after == db.(tasks := after.tasks, events := after.events)
    ensures |after.events| == |db.events| + |a| + |b| && db.events <= after.events
    ensures AreNotices(db, after, after.events[|db.events|..])
  {
    assert after.events[|db.events|..] == a + b;
  }

  /** The number it answers with is the number of rows that changed, and of the events it wrote, each about
      another of those rows. */
  lemma AgentSweepCount(db: Db, versions: set<VersionId>)
    ensures var after := CancelAgentTo(db, versions); var count := |AgentQueued(db.tasks, versions)| + |AgentRunning(db.tasks, versions)|;
      && after == db.(tasks := after.tasks, events := after.events) && after.tasks.Keys == db.tasks.Keys
      && count == |Changed(db.tasks, after.tasks)|
      && |after.events| == |db.events| + count && db.events <= after.events && AreNotices(db, after, after.events[|db.events|..])
  {
    var queued, running := InOrder(AgentQueued(db.tasks, versions)), InOrder(AgentRunning(db.tasks, versions));
    SweepParts(db, versions, queued, running);
    SweepNotices(db, versions, queued, running);
    ChangedCount(db, versions);
    ChangedRows(db, versions);
    AddedEvents(db, CancelAgentTo(db, versions), Notices(db.tasks, queued, TaskCancelled), Notices(db.tasks, running, CancelRequested));
  }
}
