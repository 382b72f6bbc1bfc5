/** src/acp/db/queries/tasks.py, src/acp/api/routes/tasks.py and src/acp/scheduling/admission.py:
    admission, idempotent submission, cancellation. */
module Tasks {
  import opened Wrappers
  import opened Orders
  import opened States
  import opened Tables
  import opened Agents
  import opened Transitions

  // ---- admission ------------------------------------------------------------------------------------

  datatype Admission = Admit | RejectTenantBacklog | ShedOverloaded

  function Decide(tenantQueued: nat, tenantMaxQueued: nat, globalQueued: nat, shedThreshold: nat): Admission {
    if tenantQueued >= tenantMaxQueued then RejectTenantBacklog
    else if shedThreshold > 0 && globalQueued >= shedThreshold then ShedOverloaded
    else Admit
  }

  function QueuedSet(tasks: map<TaskId, Task>, tenant: TenantId): set<TaskId> {
    set id | id in tasks && tasks[id].tenant == tenant && tasks[id].state == Queued
  }

  // ---- submission -----------------------------------------------------------------------------------

  datatype Request = Request(
    tenant: TenantId, taskType: string, payload: Json, idempotencyKey: Option<string>, priority: nat,
    maxAttempts: nat, maxExecutionTime: nat, availableAt: Option<Time>, agentVersion: Option<VersionId>,
    requiredCapabilities: seq<string>)

  datatype Submitted =
    | Created(id: TaskId) | Existing(id: TaskId) | PayloadMismatch(id: TaskId)
    | UnknownTenant | QuotaExceeded | Overloaded | ConstraintViolation

  const TRACE: string := "_trace"

  function WithoutTrace(payload: Json): Json {
    payload - {TRACE}
  }

  /** The rows the partial unique index on (tenant_id, idempotency_key) compares with. */
  function SameKey(tasks: map<TaskId, Task>, tenant: TenantId, key: Option<string>): set<TaskId> {
    set id | id in tasks && tasks[id].tenant == tenant && key.Some? && tasks[id].idempotencyKey == key
  }

  /** The index itself. */
  ghost predicate UniqueKeys(tasks: map<TaskId, Task>) {
    forall a, b | a in tasks && b in tasks && tasks[a].idempotencyKey.Some? ::
      tasks[a].tenant == tasks[b].tenant && tasks[a].idempotencyKey == tasks[b].idempotencyKey ==> a == b
  }

  function NewTask(r: Request, now: Time): Task {
    Task(r.tenant, r.taskType, r.payload, r.idempotencyKey, r.priority,
         Queued, 0, r.maxAttempts, r.maxExecutionTime,
         if r.availableAt.Some? then r.availableAt.value else now, None, None,
         r.agentVersion, r.requiredCapabilities, CapabilityKey(r.requiredCapabilities),
         false, None, None, now, None, None)
  }

  /** The CHECK, foreign-key and primary-key constraints an insert must pass. */
  predicate Insertable(db: Db, r: Request, id: TaskId) {
    r.maxAttempts >= 1 && r.maxExecutionTime >= 1 && r.tenant in db.tenants && id !in db.tasks
  }

  /** The whole effect of a successful insert: one row, one event. */
  function Inserted(db: Db, r: Request, id: TaskId): Db {
    db.(tasks := db.tasks[id := NewTask(r, db.now)],
        events := db.events + [Event(id, Some(0), TaskCreated, None)])
  }

  /** How `submit_task` must answer. `id` is the random primary key the insert would get. */
  ghost predicate SubmitOutcome(db: Db, r: Request, id: TaskId, after: Db, res: Submitted) {
    var same := SameKey(db.tasks, r.tenant, r.idempotencyKey);
    if !Insertable(db, r, id) then res == ConstraintViolation && after == db
    else if same == {} then res == Created(id) && after == Inserted(db, r, id)
    else
      && after == db
      && exists found <- same ::
           res == if WithoutTrace(db.tasks[found].payload) == WithoutTrace(r.payload)
                  then Existing(found) else PayloadMismatch(found)
  }

  method SubmitTask(conn: Connection, r: Request, id: TaskId) returns (res: Submitted)
    modifies conn
    ensures SubmitOutcome(old(conn.Snapshot()), r, id, conn.Snapshot(), res)
  {
    if r.maxAttempts < 1 || r.maxExecutionTime < 1 || r.tenant !in conn.tenants || id in conn.tasks {
      return ConstraintViolation;
    }
    var tasks := conn.tasks;
    var same := set other | other in tasks && tasks[other].tenant == r.tenant
                            && r.idempotencyKey.Some? && tasks[other].idempotencyKey == r.idempotencyKey;
    if same == {} {
      conn.tasks := conn.tasks[id := NewTask(r, conn.now)];
      RecordEvent(conn, id, TaskCreated, Some(0), None);
      return Created(id);
    }
    var found :| found in same;
    if WithoutTrace(tasks[found].payload) != WithoutTrace(r.payload) {
      return PayloadMismatch(found);
    }
    res := Existing(found);
  }

  /** The tables after a submission, which the outcome relation fixes. */
  function SubmittedDb(db: Db, r: Request, id: TaskId): Db {
    if Insertable(db, r, id) && SameKey(db.tasks, r.tenant, r.idempotencyKey) == {} then Inserted(db, r, id) else db
  }

  // ---- the API's submission: admission first, then the insert ------------------------------------------

  // What the process knows besides the database: the cached global depth, the configured threshold
  // and the trace carrier of the current request.
  datatype Ambient = Ambient(globalQueued: nat, shedThreshold: nat, carrier: Option<string>)

  function Traced(r: Request, env: Ambient): Request {
    if env.carrier.Some? then r.(payload := r.payload[TRACE := env.carrier.value]) else r
  }

  function Verdict(db: Db, tenant: TenantId, env: Ambient): Admission
    requires tenant in db.tenants
  {
    Decide(|QueuedSet(db.tasks, tenant)|, db.tenants[tenant].maxQueued, env.globalQueued, env.shedThreshold)
  }

  ghost predicate ApiOutcome(db: Db, r: Request, id: TaskId, env: Ambient, after: Db, res: Submitted) {
    if r.tenant !in db.tenants then res == UnknownTenant && after == db
    else match Verdict(db, r.tenant, env)
      case RejectTenantBacklog => res == QuotaExceeded && after == db
      case ShedOverloaded => res == Overloaded && after == db
      case Admit => SubmitOutcome(db, Traced(r, env), id, after, res)
  }

  function ApiSubmittedDb(db: Db, r: Request, id: TaskId, env: Ambient): Db {
    if r.tenant in db.tenants && Verdict(db, r.tenant, env) == Admit then SubmittedDb(db, Traced(r, env), id) else db
  }

  /** `_submit`: look up the tenant, count its backlog, decide, then insert, in one transaction. */
  method Submit(conn: Connection, r: Request, id: TaskId, env: Ambient) returns (res: Submitted)
    modifies conn
    ensures ApiOutcome(old(conn.Snapshot()), r, id, env, conn.Snapshot(), res)
    ensures conn.Snapshot() == ApiSubmittedDb(old(conn.Snapshot()), r, id, env)
  {
    if r.tenant !in conn.tenants {
      return UnknownTenant;
    }
    var queued := QueuedCountForTenant(conn, r.tenant);
    var verdict := Decide(queued, conn.tenants[r.tenant].maxQueued, env.globalQueued, env.shedThreshold);
    if verdict == RejectTenantBacklog {
      return QuotaExceeded;
    }
    if verdict == ShedOverloaded {
      return Overloaded;
    }
    var payload := r.payload;
    if env.carrier.Some? {
      payload := payload[TRACE := env.carrier.value];
    }
    res := SubmitTask(conn, r.(payload := payload), id);
  }

  method QueuedCountForTenant(conn: Connection, tenant: TenantId) returns (n: nat)
    ensures n == |QueuedSet(conn.tasks, tenant)|
  {
    var tasks := conn.tasks;
    n := |set id | id in tasks && tasks[id].tenant == tenant && tasks[id].state == Queued|;
  }

  /** What the count is for: an accepted submission adds one to its tenant's backlog and keeps it within
      the tenant's bound, and no other tenant's backlog moves. */
  lemma AcceptedWithinBacklog(db: Db, r: Request, id: TaskId, env: Ambient, after: Db, res: Submitted)
    requires ApiOutcome(db, r, id, env, after, res) && res.Created?
    ensures r.tenant in db.tenants
    ensures |QueuedSet(after.tasks, r.tenant)| == |QueuedSet(db.tasks, r.tenant)| + 1 <= db.tenants[r.tenant].maxQueued
    ensures forall other | other != r.tenant :: QueuedSet(after.tasks, other) == QueuedSet(db.tasks, other)
  {
    BacklogAfterInsert(db, Traced(r, env), id);
  }

  lemma QueuedAfterInsert(tasks: map<TaskId, Task>, id: TaskId, t: Task, tenant: TenantId)
    requires id !in tasks && t.state == Queued
    ensures QueuedSet(tasks[id := t], tenant) == QueuedSet(tasks, tenant) + if t.tenant == tenant then {id} else {}
  {}

  lemma BacklogAfterInsert(db: Db, r: Request, id: TaskId)
    requires id !in db.tasks
    ensures var after := Inserted(db, r, id);
      && |QueuedSet(after.tasks, r.tenant)| == |QueuedSet(db.tasks, r.tenant)| + 1
      && forall other | other != r.tenant :: QueuedSet(after.tasks, other) == QueuedSet(db.tasks, other)
  {
    forall tenant { QueuedAfterInsert(db.tasks, id, NewTask(r, db.now), tenant); }
    OneMore(QueuedSet(db.tasks, r.tenant), id);
  }

  lemma OneMore(ids: set<TaskId>, id: TaskId)
    requires id !in ids
    ensures |ids + {id}| == |ids| + 1
  {}

  lemma TraceIsIgnored(r: Request, env: Ambient)
    ensures WithoutTrace(Traced(r, env).payload) == WithoutTrace(r.payload)
  {}

  /** A resubmission, equal up to its trace, of a task that is in the table changes nothing; it is
      answered with the original task exactly when the request is admitted. Admission is asked before
      the key is looked up, so a tenant at its backlog bound is refused even for work already accepted. */
  lemma ResubmissionIff(db: Db, r: Request, id: TaskId, env: Ambient, original: TaskId, after: Db, res: Submitted)
    requires UniqueKeys(db.tasks) && original in db.tasks && r.idempotencyKey.Some?
    requires db.tasks[original].tenant == r.tenant && db.tasks[original].idempotencyKey == r.idempotencyKey
    requires WithoutTrace(db.tasks[original].payload) == WithoutTrace(r.payload)
    requires Insertable(db, r, id)
    requires ApiOutcome(db, r, id, env, after, res)
    ensures after == db
    ensures res == Existing(original) <==> Verdict(db, r.tenant, env) == Admit
  {
    TraceIsIgnored(r, env);
    assert original in SameKey(db.tasks, r.tenant, r.idempotencyKey);
  }

  /** The same key with different work is refused, and changes nothing; a submission without a key
      always creates. */
  lemma KeyReuse(db: Db, r: Request, id: TaskId, after: Db, res: Submitted)
    requires UniqueKeys(db.tasks) && Insertable(db, r, id) && SubmitOutcome(db, r, id, after, res)
    ensures r.idempotencyKey.None? ==> res == Created(id)
    ensures forall other <- SameKey(db.tasks, r.tenant, r.idempotencyKey) ::
              after == db && (WithoutTrace(db.tasks[other].payload) != WithoutTrace(r.payload) <==> res == PayloadMismatch(other))
                          && (WithoutTrace(db.tasks[other].payload) == WithoutTrace(r.payload) <==> res == Existing(other))
  {}

  // ---- cancellation -----------------------------------------------------------------------------------

  datatype CancelOutcome = CancelNotFound | CancelledNow | Requested | AlreadyRequested | AlreadyCancelled | AlreadyTerminal

  const CANCEL_PATCH: Patch := Patch(None, false, true, None, None, true)

  /** A QUEUED task ends at once; a RUNNING one is only asked to stop. */
  function CancelTo(db: Db, id: TaskId): (Db, CancelOutcome) {
    if id !in db.tasks then (db, CancelNotFound)
    else
      var t := db.tasks[id];
      if t.state == Cancelled then (db, AlreadyCancelled)
      else if t.state in TERMINAL then (db, AlreadyTerminal)
      else if t.state == Queued then
        (TransitionTo(db, id, Guard([Queued], None, None, false, false), Cancelled, TaskCancelled, CANCEL_PATCH).0,
         CancelledNow)
      else if t.cancelRequested then (db, AlreadyRequested)
      else (Flagged(db, id), Requested)
  }

  /** The flag and its event. */
  function Flagged(db: Db, id: TaskId): Db
    requires id in db.tasks
  {
    var t := db.tasks[id];
    Recorded(db.(tasks := db.tasks[id := t.(cancelRequested := true)]), id, CancelRequested, Some(t.attempt), None)
  }

  function CancelledRow(t: Task, now: Time): Task {
    t.(state := Cancelled, cancelRequested := true, finishedAt := Some(now))
  }

  /** What a cancellation writes in each case. */
  lemma CancelShape(db: Db, id: TaskId)
    ensures CancelTo(db, id).0 ==
      if id in db.tasks && db.tasks[id].state == Queued then
        var t := db.tasks[id];
        db.(tasks := db.tasks[id := CancelledRow(t, db.now)],
            events := db.events + [Event(id, Some(t.attempt), TaskCancelled, Or(t.leaseWorker, None))])
      else if id in db.tasks && db.tasks[id].state == Running && !db.tasks[id].cancelRequested then Flagged(db, id)
      else db
  {}

  method CancelTask(conn: Connection, id: TaskId) returns (outcome: CancelOutcome)
    modifies conn
    ensures (conn.Snapshot(), outcome) == CancelTo(old(conn.Snapshot()), id)
  {
    if id !in conn.tasks {
      return CancelNotFound;
    }
    var row := conn.tasks[id];
    if row.state == Cancelled {
      return AlreadyCancelled;
    }
    if row.state in TERMINAL {
      return AlreadyTerminal;
    }
    if row.state == Queued {
      var res := Transition(conn, id, Guard([Queued], None, None, false, false), Cancelled, TaskCancelled, CANCEL_PATCH);
      assert res.Applied?;
      return CancelledNow;
    }
    if row.cancelRequested {
      return AlreadyRequested;
    }
    conn.tasks := conn.tasks[id := row.(cancelRequested := true)];
    RecordEvent(conn, id, CancelRequested, Some(row.attempt), None);
    outcome := Requested;
  }

  // ---- cancelling an agent's work ------------------------------------------------------------------------

  predicate OfAgent(t: Task, versions: set<VersionId>) {
    t.agentVersion.Some? && t.agentVersion.value in versions
  }

  predicate Less(a: TaskId, b: TaskId) {
    a < b
  }

  function InOrder(ids: set<TaskId>): seq<TaskId> {
    Ascending(ids, Less)
  }

  function AgentQueued(tasks: map<TaskId, Task>, versions: set<VersionId>): set<TaskId> {
    set id | id in tasks && OfAgent(tasks[id], versions) && tasks[id].state == Queued
  }

  function AgentRunning(tasks: map<TaskId, Task>, versions: set<VersionId>): set<TaskId> {
    set id | id in tasks && OfAgent(tasks[id], versions) && tasks[id].state == Running && !tasks[id].cancelRequested
  }

  /** One QUEUED row of the sweep: ended without `transition`, with its event. */
  function SweptQueued(db: Db, id: TaskId): Db {
    if id !in db.tasks then db else
      var t := db.tasks[id];
      Recorded(db.(tasks := db.tasks[id := t.(state := Cancelled, cancelRequested := true, finishedAt := Some(db.now),
                                              errorClass := Some("AgentDisabled"))]),
               id, TaskCancelled, Some(t.attempt), None)
  }

  function SweptRunning(db: Db, id: TaskId): Db {
    if id in db.tasks then Flagged(db, id) else db
  }

  function SweepQueued(db: Db, ids: seq<TaskId>): Db {
    if ids == [] then db else SweptQueued(SweepQueued(db, ids[..|ids| - 1]), ids[|ids| - 1])
  }

  function SweepRunning(db: Db, ids: seq<TaskId>): Db {
    if ids == [] then db else SweptRunning(SweepRunning(db, ids[..|ids| - 1]), ids[|ids| - 1])
  }

  /** `cancel_agent_tasks`: end every QUEUED task of these versions, flag every RUNNING one not yet
      flagged. Rows are taken in id order, one order PostgreSQL may choose. */
  function CancelAgentTo(db: Db, versions: set<VersionId>): Db {
    SweepRunning(SweepQueued(db, InOrder(AgentQueued(db.tasks, versions))), InOrder(AgentRunning(db.tasks, versions)))
  }

  method CancelAgentTasks(conn: Connection, versions: set<VersionId>) returns (count: nat)
    modifies conn
    ensures conn.Snapshot() == CancelAgentTo(old(conn.Snapshot()), versions)
    ensures count == |AgentQueued(old(conn.tasks), versions)| + |AgentRunning(old(conn.tasks), versions)|
  {
    ghost var db := conn.Snapshot();
    var tasks := conn.tasks;
    var queued := InOrder(AgentQueued(tasks, versions));
    var running := InOrder(AgentRunning(tasks, versions));
    for i := 0 to |queued|
      invariant conn.Snapshot() == SweepQueued(db, queued[..i])
    {
      assert queued[..i + 1][..i] == queued[..i];
      CancelQueuedRow(conn, queued[i]);
    }
    assert queued[..|queued|] == queued;
    ghost var mid := conn.Snapshot();
    for i := 0 to |running|
      invariant conn.Snapshot() == SweepRunning(mid, running[..i])
    {
      assert running[..i + 1][..i] == running[..i];
      FlagRow(conn, running[i]);
    }
    assert running[..|running|] == running;
    count := |queued| + |running|;
  }

  method CancelQueuedRow(conn: Connection, id: TaskId)
    modifies conn
    ensures conn.Snapshot() == SweptQueued(old(conn.Snapshot()), id)
  {
    if id in conn.tasks {
      var t := conn.tasks[id];
      conn.tasks := conn.tasks[id := t.(state := Cancelled, cancelRequested := true, finishedAt := Some(conn.now),
                                        errorClass := Some("AgentDisabled"))];
      RecordEvent(conn, id, TaskCancelled, Some(t.attempt), None);
    }
  }

  method FlagRow(conn: Connection, id: TaskId)
    modifies conn
    ensures conn.Snapshot() == SweptRunning(old(conn.Snapshot()), id)
  {
    if id in conn.tasks {
      var t := conn.tasks[id];
      conn.tasks := conn.tasks[id := t.(cancelRequested := true)];
      RecordEvent(conn, id, CancelRequested, Some(t.attempt), None);
    }
  }
}
