/** src/acp/db/models.py: the tables the protocol lives in, and the connection that holds them. */
module Tables {
  import opened Wrappers
  import opened States

  // UUIDs are 128-bit numbers under their own order; time is PostgreSQL's, in microseconds.
  type TaskId = nat
  type TenantId = nat
  type VersionId = nat
  type WorkerId = string
  type Time = int
  type Json = map<string, string>

  /** A number of seconds as time. */
  function Seconds(n: int): Time {
    n * 1_000_000
  }

  datatype Tenant = Tenant(maxConcurrent: nat, maxQueued: nat)

  datatype Task = Task(
    tenant: TenantId, taskType: string, payload: Json, idempotencyKey: Option<string>, priority: nat,
    state: State, attempt: nat, maxAttempts: nat, maxExecutionTime: nat,
    availableAt: Time, leaseWorker: Option<WorkerId>, leaseExpiresAt: Option<Time>,
    agentVersion: Option<VersionId>, requiredCapabilities: seq<string>, capabilityKey: string,
    cancelRequested: bool, result: Option<Json>, errorClass: Option<string>,
    createdAt: Time, firstStartedAt: Option<Time>, finishedAt: Option<Time>)

  datatype Outcome = DidSucceed | DidFail | WasLost | WasAbandoned | WasCancelled

  // Primary key of task_attempts.
  datatype AttemptKey = AttemptKey(task: TaskId, attempt: nat)
  datatype AttemptRow = AttemptRow(
    worker: WorkerId, startedAt: Time, finishedAt: Option<Time>, outcome: Option<Outcome>, errorClass: Option<string>)

  datatype Event = Event(task: TaskId, attempt: Option<nat>, kind: EventType, worker: Option<WorkerId>)

  /** The whole database at one instant. The id of an event is its position. */
  datatype Db = Db(
    now: Time, tenants: map<TenantId, Tenant>, tasks: map<TaskId, Task>,
    attempts: map<AttemptKey, AttemptRow>, events: seq<Event>)

  /** A connection inside a transaction: statements change the tables in place. `now()` is the
      transaction's start and never changes inside it. */
  class Connection {
    const now: Time
    var tenants: map<TenantId, Tenant>
    var tasks: map<TaskId, Task>
    var attempts: map<AttemptKey, AttemptRow>
    var events: seq<Event>

    constructor (db: Db)
      ensures Snapshot() == db
    {
      now, tenants, tasks, attempts, events := db.now, db.tenants, db.tasks, db.attempts, db.events;
    }

    function Snapshot(): (db: Db)
      reads this
    {
      Db(now, tenants, tasks, attempts, events)
    }
  }

  /** `LeaseExpired`: the reaper's fence; a missing expiry never matches. */
  predicate LeaseExpired(t: Task, now: Time) {
    t.leaseExpiresAt.Some? && t.leaseExpiresAt.value < now
  }

  /** The hung-task fence: wall-clock time since the task first started. */
  predicate ExecutionTimeExceeded(t: Task, now: Time) {
    t.firstStartedAt.Some? && t.firstStartedAt.value + Seconds(t.maxExecutionTime) < now
  }

  /** A tenure: the worker that was granted attempt `attempt` still holds the task. */
  predicate Holds(db: Db, id: TaskId, attempt: nat, worker: WorkerId) {
    && id in db.tasks
    && db.tasks[id].state == Running
    && db.tasks[id].attempt == attempt
    && db.tasks[id].leaseWorker == Some(worker)
  }
}
