/** What stays bounded and unique over whole runs: tenant limits, backlog, idempotency keys. */
module Bounds {
  import opened Wrappers
  import opened Orders
  import opened States
  import opened Tables
  import opened Agents
  import opened Claim
  import opened Rounds
  import opened Grants
  import opened Tasks
  import opened Ledger
  import opened Protocol
  import opened Moves

  /** The tasks of a tenant that are waiting or running. */
  function ActiveSet(tasks: map<TaskId, Task>, tenant: TenantId): set<TaskId> {
    QueuedSet(tasks, tenant) + RunningSet(tasks, tenant)
  }

  lemma ActiveSize(tasks: map<TaskId, Task>, tenant: TenantId)
    ensures |ActiveSet(tasks, tenant)| == |QueuedSet(tasks, tenant)| + |RunningSet(tasks, tenant)|
  {
    assert QueuedSet(tasks, tenant) !! RunningSet(tasks, tenant);
  }

  predicate WithinLimits(db: Db, tenant: TenantId) {
    tenant in db.tenants ==>
      && |RunningSet(db.tasks, tenant)| <= db.tenants[tenant].maxConcurrent
      && |ActiveSet(db.tasks, tenant)| <= db.tenants[tenant].maxQueued + db.tenants[tenant].maxConcurrent
  }

  /** The columns a task is stored with: its key is computed from its capabilities, its tenant exists. */
  predicate WellStored(db: Db) {
    forall id <- db.tasks :: KeyStored(db.tasks[id]) && db.tasks[id].tenant in db.tenants
  }

  ghost predicate Bounded(db: Db) {
    && WellStored(db)
    && UniqueKeys(db.tasks)
    && forall tenant :: WithinLimits(db, tenant)
  }

  // ---- one step ---------------------------------------------------------------------------------------

  lemma OldRow(db: Db, s: Step, id: TaskId)
    requires Coherent(db) && id in db.tasks
    ensures id in Apply(db, s).tasks && SameOrigin(db.tasks[id], Apply(db, s).tasks[id])
  {
    StepCoherent(db, s);
  }

  /** What a new row looks like: only an admitted submission adds one. */
  lemma NewRow(db: Db, s: Step, id: TaskId)
    requires Coherent(db) && id !in db.tasks && id in Apply(db, s).tasks
    ensures s.Submission? && id == s.id && s.request.tenant in db.tenants
    ensures Apply(db, s).tasks == db.tasks[id := Apply(db, s).tasks[id]]
    ensures var t := Apply(db, s).tasks[id];
      && t.state == Queued && KeyStored(t) && t.tenant == s.request.tenant
      && SameKey(db.tasks, t.tenant, t.idempotencyKey) == {}
      && |QueuedSet(db.tasks, t.tenant)| < db.tenants[t.tenant].maxQueued
  {
    StepMoves(db, s);
  }

  lemma TenantsGrow(db: Db, s: Step)
    requires Coherent(db)
    ensures db.tenants.Keys <= Apply(db, s).tenants.Keys
    ensures forall tenant <- db.tenants :: Apply(db, s).tenants[tenant] == db.tenants[tenant]
    ensures !s.AddTenant? ==> Apply(db, s).tenants == db.tenants
  {
    StepCoherent(db, s);
    StepMoves(db, s);
  }

  lemma StepWellStored(db: Db, s: Step)
    requires Coherent(db) && WellStored(db)
    ensures WellStored(Apply(db, s))
  {
    TenantsGrow(db, s);
    forall id | id in Apply(db, s).tasks
      ensures KeyStored(Apply(db, s).tasks[id]) && Apply(db, s).tasks[id].tenant in Apply(db, s).tenants
    {
      if id in db.tasks { OldRow(db, s, id); } else { NewRow(db, s, id); }
    }
  }

  lemma KeysAfterInsert(tasks: map<TaskId, Task>, id: TaskId, t: Task)
    requires UniqueKeys(tasks) && id !in tasks && SameKey(tasks, t.tenant, t.idempotencyKey) == {}
    ensures UniqueKeys(tasks[id := t])
  {
    forall other | other in tasks && t.idempotencyKey.Some?
      ensures tasks[other].tenant != t.tenant || tasks[other].idempotencyKey != t.idempotencyKey
    {
      assert other !in SameKey(tasks, t.tenant, t.idempotencyKey);
    }
  }

  lemma KeysKept(a: map<TaskId, Task>, b: map<TaskId, Task>)
    requires UniqueKeys(a) && b.Keys == a.Keys && forall id <- a :: SameOrigin(a[id], b[id])
    ensures UniqueKeys(b)
  {}

  /** A new row found no row with its key; old rows keep theirs. */
  lemma StepUniqueKeys(db: Db, s: Step)
    requires Coherent(db) && UniqueKeys(db.tasks)
    ensures UniqueKeys(Apply(db, s).tasks)
  {
    var after := Apply(db, s).tasks;
    if id :| id in after && id !in db.tasks {
      NewRow(db, s, id);
      KeysAfterInsert(db.tasks, id, after[id]);
    } else {
      forall id | id in db.tasks ensures id in after && SameOrigin(db.tasks[id], after[id]) { OldRow(db, s, id); }
      KeysKept(db.tasks, after);
    }
  }

  lemma RanBefore(db: Db, s: Step, id: TaskId)
    requires Coherent(db) && !s.Claiming? && id in Apply(db, s).tasks && Apply(db, s).tasks[id].state == Running
    ensures id in db.tasks && db.tasks[id].state == Running && db.tasks[id].tenant == Apply(db, s).tasks[id].tenant
  {
    StepMoves(db, s);
    if id in db.tasks {
      OldRow(db, s, id);
    } else {
      NewRow(db, s, id);
    }
  }

  /** Only a claim makes a task RUNNING. */
  lemma RunningShrinks(db: Db, s: Step, tenant: TenantId)
    requires Coherent(db) && !s.Claiming?
    ensures RunningSet(Apply(db, s).tasks, tenant) <= RunningSet(db.tasks, tenant)
  {
    forall id | id in RunningSet(Apply(db, s).tasks, tenant) ensures id in RunningSet(db.tasks, tenant) {
      RanBefore(db, s, id);
    }
  }

  /** Only a submission adds to what is waiting or running. */
  lemma ActiveShrinks(db: Db, s: Step, tenant: TenantId)
    requires Coherent(db) && !s.Submission?
    ensures ActiveSet(Apply(db, s).tasks, tenant) <= ActiveSet(db.tasks, tenant)
  {
    var after := Apply(db, s).tasks;
    forall id | id in ActiveSet(after, tenant) ensures id in ActiveSet(db.tasks, tenant) {
      if id in db.tasks {
        OldRow(db, s, id);
        StepsAreLegal(db, s, id);
      } else {
        NewRow(db, s, id);
      }
    }
  }

  function OfTenant(tasks: map<TaskId, Task>, ids: seq<TaskId>, tenant: TenantId): set<TaskId> {
    set id | id in ids && TenantOf(tasks, id) == tenant
  }

  lemma OneMoreOfTenant(tasks: map<TaskId, Task>, front: seq<TaskId>, last: TaskId, tenant: TenantId)
    ensures |OfTenant(tasks, front + [last], tenant)| <= |OfTenant(tasks, front, tenant)| + if TenantOf(tasks, last) == tenant then 1 else 0
  {
    if TenantOf(tasks, last) == tenant {
      assert OfTenant(tasks, front + [last], tenant) == OfTenant(tasks, front, tenant) + {last};
    } else {
      assert OfTenant(tasks, front + [last], tenant) == OfTenant(tasks, front, tenant);
    }
  }

  lemma {:induction false} OfTenantSize(tasks: map<TaskId, Task>, ids: seq<TaskId>, tenant: TenantId)
    ensures |OfTenant(tasks, ids, tenant)| <= CountOf(tasks, ids, tenant)
  {
    if ids == [] {
    } else {
      var front, last := ids[..|ids| - 1], ids[|ids| - 1];
      OfTenantSize(tasks, front, tenant);
      OneMoreOfTenant(tasks, front, last, tenant);
      FrontAndLast(ids);
    }
  }

  lemma GrantedRunning(db: Db, ids: seq<TaskId>, worker: WorkerId, ttl: nat, tenant: TenantId)
    requires Distinct(ids) && forall id <- ids :: id in db.tasks
    ensures RunningSet(GrantAll(db, ids, worker, ttl).tasks, tenant) <= RunningSet(db.tasks, tenant) + OfTenant(db.tasks, ids, tenant)
  {
    GrantAllEffect(db, ids, worker, ttl);
  }

  lemma ClaimedRunning(db: Db, s: Step, tenant: TenantId)
    requires Coherent(db) && s.Claiming?
    ensures var ids := ClaimWithin(db, s.caps, s.limit, s.locked, s.rounds);
            RunningSet(Apply(db, s).tasks, tenant) <= RunningSet(db.tasks, tenant) + OfTenant(db.tasks, ids, tenant)
  {
    var ids := ClaimWithin(db, s.caps, s.limit, s.locked, s.rounds);
    ClaimCoherent(db, s.worker, s.limit, s.ttl, s.caps, s.locked, s.rounds);
    GrantedRunning(db, ids, s.worker, s.ttl, tenant);
  }

  lemma ClaimedCount(db: Db, caps: seq<string>, limit: nat, locked: set<TaskId>, rounds: nat, tenant: TenantId)
    ensures var n := |OfTenant(db.tasks, ClaimWithin(db, caps, limit, locked, rounds), tenant)|;
            n == 0 || n <= Slack(db, tenant)
  {
    ClaimGuarantee(db, caps, limit, locked, rounds);
    OfTenantSize(db.tasks, ClaimWithin(db, caps, limit, locked, rounds), tenant);
  }

  /** A claim adds at most the slack that was there. */
  lemma ClaimWithinLimit(db: Db, s: Step, tenant: TenantId)
    requires Coherent(db) && WithinLimits(db, tenant) && s.Claiming? && tenant in db.tenants
    ensures |RunningSet(Apply(db, s).tasks, tenant)| <= db.tenants[tenant].maxConcurrent
  {
    ClaimedRunning(db, s, tenant);
    ClaimedCount(db, s.caps, s.limit, s.locked, s.rounds, tenant);
    var taken := OfTenant(db.tasks, ClaimWithin(db, s.caps, s.limit, s.locked, s.rounds), tenant);
    SubsetSize(RunningSet(Apply(db, s).tasks, tenant), RunningSet(db.tasks, tenant) + taken);
  }

  lemma ActiveAfterInsert(db: Db, id: TaskId, t: Task, tenant: TenantId)
    requires id !in db.tasks && t.state == Queued
    ensures ActiveSet(db.tasks[id := t], tenant) == ActiveSet(db.tasks, tenant) + if t.tenant == tenant then {id} else {}
  {}

  lemma RoomForNewRow(db: Db, id: TaskId, t: Task, tenant: TenantId)
    requires WithinLimits(db, tenant) && tenant in db.tenants && id !in db.tasks && t.state == Queued
    requires t.tenant == tenant ==> |QueuedSet(db.tasks, tenant)| < db.tenants[tenant].maxQueued
    ensures |ActiveSet(db.tasks[id := t], tenant)| <= db.tenants[tenant].maxQueued + db.tenants[tenant].maxConcurrent
  {
    ActiveSize(db.tasks, tenant);
    ActiveAfterInsert(db, id, t, tenant);
  }

  lemma SubmissionWithinLimit(db: Db, s: Step, tenant: TenantId)
    requires Coherent(db) && WithinLimits(db, tenant) && s.Submission? && tenant in db.tenants
    ensures |ActiveSet(Apply(db, s).tasks, tenant)| <= db.tenants[tenant].maxQueued + db.tenants[tenant].maxConcurrent
  {
    if s.id in Apply(db, s).tasks && s.id !in db.tasks {
      NewRow(db, s, s.id);
      RoomForNewRow(db, s.id, Apply(db, s).tasks[s.id], tenant);
    } else {
      NothingInserted(db, s);
    }
  }

  lemma NothingInserted(db: Db, s: Step)
    requires s.Submission? && !(s.id in Apply(db, s).tasks && s.id !in db.tasks)
    ensures Apply(db, s).tasks == db.tasks
  {}

  lemma NobodyYet(db: Db, s: Step, tenant: TenantId)
    requires Coherent(db) && WellStored(db) && tenant !in db.tenants
    ensures RunningSet(Apply(db, s).tasks, tenant) == {} && ActiveSet(Apply(db, s).tasks, tenant) == {}
  {
    forall id | id in Apply(db, s).tasks ensures Apply(db, s).tasks[id].tenant != tenant {
      if id in db.tasks { OldRow(db, s, id); } else { NewRow(db, s, id); }
    }
  }

  lemma StepWithinLimits(db: Db, s: Step, tenant: TenantId)
    requires Coherent(db) && WellStored(db) && WithinLimits(db, tenant)
    ensures WithinLimits(Apply(db, s), tenant)
  {
    TenantsGrow(db, s);
    if tenant !in db.tenants {
      NobodyYet(db, s, tenant);
    } else {
      if s.Claiming? {
        ClaimWithinLimit(db, s, tenant);
      } else {
        RunningShrinks(db, s, tenant);
        SubsetSize(RunningSet(Apply(db, s).tasks, tenant), RunningSet(db.tasks, tenant));
      }
      if s.Submission? {
        SubmissionWithinLimit(db, s, tenant);
      } else {
        ActiveShrinks(db, s, tenant);
        SubsetSize(ActiveSet(Apply(db, s).tasks, tenant), ActiveSet(db.tasks, tenant));
      }
    }
  }

  // ---- whole runs -------------------------------------------------------------------------------------

  lemma {:induction false} RunBounded(db: Db, steps: seq<Step>)
    requires Coherent(db) && Bounded(db)
    ensures Bounded(Run(db, steps))
  {
    if steps == [] {
    } else {
      var front, last := steps[..|steps| - 1], steps[|steps| - 1];
      RunBounded(db, front);
      RunCoherent(db, front);
      StepWellStored(Run(db, front), last);
      StepUniqueKeys(Run(db, front), last);
      forall tenant { StepWithinLimits(Run(db, front), last, tenant); }
    }
  }

  lemma EmptyBounded()
    ensures Bounded(EMPTY)
  {
    assert forall tenant :: WithinLimits(EMPTY, tenant);
  }

  /** Tenant bounds with atomic submissions and claims: RUNNING never exceeds max_concurrent_tasks, and
      QUEUED and RUNNING together never exceed max_queued_tasks + max_concurrent_tasks, although
      retries, recoveries and hand-backs put work back into the queue without asking admission. */
  lemma TenantBounds(steps: seq<Step>, tenant: TenantId)
    requires tenant in Run(EMPTY, steps).tenants
    ensures var db := Run(EMPTY, steps);
      && |RunningSet(db.tasks, tenant)| <= db.tenants[tenant].maxConcurrent
      && |QueuedSet(db.tasks, tenant)| + |RunningSet(db.tasks, tenant)|
         <= db.tenants[tenant].maxQueued + db.tenants[tenant].maxConcurrent
  {
    EmptyCoherent();
    EmptyBounded();
    RunBounded(EMPTY, steps);
    var db := Run(EMPTY, steps);
    assert WithinLimits(db, tenant);
    ActiveSize(db.tasks, tenant);
  }

  /** Idempotent submission over whole runs: a tenant has at most one task per key, whatever else
      happened; and the key, payload and tenant a task was accepted with never change. */
  lemma OneTaskPerKey(start: seq<Step>, later: seq<Step>, a: TaskId, b: TaskId)
    requires a in Run(EMPTY, start).tasks
    ensures var early := Run(EMPTY, start); var late := Run(early, later);
      && a in late.tasks && SameOrigin(early.tasks[a], late.tasks[a])
      && (early.tasks[a].idempotencyKey.Some? && b in late.tasks
            && late.tasks[b].tenant == early.tasks[a].tenant && late.tasks[b].idempotencyKey == early.tasks[a].idempotencyKey
          ==> a == b)
  {
    EmptyCoherent();
    EmptyBounded();
    RunCoherent(EMPTY, start);
    RunBounded(EMPTY, start);
    RunCoherent(Run(EMPTY, start), later);
    RunBounded(Run(EMPTY, start), later);
  }

  /** A resubmission at any later time finds its task: whatever happened since, it changes nothing, and
      if admitted it is answered with the original id. */
  lemma ResubmissionFindsOriginal(start: seq<Step>, later: seq<Step>, original: TaskId, r: Request, id: TaskId, env: Ambient,
                                  after: Db, res: Submitted)
    requires original in Run(EMPTY, start).tasks && r.idempotencyKey.Some?
    requires var t := Run(EMPTY, start).tasks[original];
             t.tenant == r.tenant && t.idempotencyKey == r.idempotencyKey && WithoutTrace(t.payload) == WithoutTrace(r.payload)
    requires var db := Run(Run(EMPTY, start), later); Insertable(db, r, id) && ApiOutcome(db, r, id, env, after, res)
    ensures var db := Run(Run(EMPTY, start), later);
            after == db && (res == Existing(original) <==> Verdict(db, r.tenant, env) == Admit)
  {
    OneTaskPerKey(start, later, original, original);
    EmptyCoherent();
    EmptyBounded();
    RunCoherent(EMPTY, start);
    RunBounded(EMPTY, start);
    RunBounded(Run(EMPTY, start), later);
    ResubmissionIff(Run(Run(EMPTY, start), later), r, id, env, original, after, res);
  }

  /** A later submission under the key of a task with a different payload is refused: it changes nothing,
      and if admitted it is told which task has the key. One without a key is never told so. */
  lemma DifferentPayloadRefused(start: seq<Step>, later: seq<Step>, original: TaskId, r: Request, id: TaskId, env: Ambient,
                                after: Db, res: Submitted)
    requires original in Run(EMPTY, start).tasks && r.idempotencyKey.Some?
    requires var t := Run(EMPTY, start).tasks[original];
             t.tenant == r.tenant && t.idempotencyKey == r.idempotencyKey && WithoutTrace(t.payload) != WithoutTrace(r.payload)
    requires var db := Run(Run(EMPTY, start), later); Insertable(db, r, id) && ApiOutcome(db, r, id, env, after, res)
    ensures var db := Run(Run(EMPTY, start), later);
            after == db && (res == PayloadMismatch(original) <==> Verdict(db, r.tenant, env) == Admit)
  {
    OneTaskPerKey(start, later, original, original);
    LaterBounded(start, later);
    var db := Run(Run(EMPTY, start), later);
    TraceIsIgnored(r, env);
    assert original in SameKey(db.tasks, r.tenant, r.idempotencyKey);
    if Verdict(db, r.tenant, env) == Admit { KeyReuse(db, Traced(r, env), id, after, res); }
  }

  lemma LaterBounded(start: seq<Step>, later: seq<Step>)
    ensures Bounded(Run(Run(EMPTY, start), later))
  {
    EmptyCoherent();
    EmptyBounded();
    RunCoherent(EMPTY, start);
    RunBounded(EMPTY, start);
    RunBounded(Run(EMPTY, start), later);
  }

  /** The same for a worker with more than five capabilities: the fallback takes only work the worker can
      do, and of that exactly the tasks whose requirements were submitted in normal form. */
  lemma FallbackClaimsMatch(steps: seq<Step>, caps: seq<string>, limit: nat, locked: set<TaskId>, rounds: nat, id: TaskId)
    requires WorkerList(caps) && |Normalised(caps)| > 5 && id in Run(EMPTY, steps).tasks
    ensures var db := Run(EMPTY, steps); var t := db.tasks[id];
      && (id in ClaimWithin(db, caps, limit, locked, rounds) ==> WorkerSatisfies(t.requiredCapabilities, caps))
      && (CandidateOf(id, t) in EligibleRows(db, caps, locked) <==>
            Ready(t, db.now) && id !in locked && WorkerSatisfies(t.requiredCapabilities, caps)
            && forall c <- t.requiredCapabilities :: Clean(c))
  {
    var db := Run(EMPTY, steps);
    FallbackTakesIff(db.tasks[id].requiredCapabilities, caps);
    ClaimGuarantee(db, caps, limit, locked, rounds);
  }

  /** In every reachable state, a keyed claim takes only work the worker can do, and a ready, unlocked
      task it can do is always a candidate, for comma-free names. */
  lemma ClaimsMatchCapabilities(steps: seq<Step>, caps: seq<string>, limit: nat, locked: set<TaskId>, rounds: nat, id: TaskId)
    requires |Normalised(caps)| <= 5 && AllCommaFree(Normalised(caps))
    requires id in Run(EMPTY, steps).tasks && AllCommaFree(Normalised(Run(EMPTY, steps).tasks[id].requiredCapabilities))
    ensures var db := Run(EMPTY, steps); var t := db.tasks[id];
      && (id in ClaimWithin(db, caps, limit, locked, rounds) ==> WorkerSatisfies(t.requiredCapabilities, caps))
      && (CandidateOf(id, t) in EligibleRows(db, caps, locked) <==>
            Ready(t, db.now) && id !in locked && WorkerSatisfies(t.requiredCapabilities, caps))
  {
    EmptyCoherent();
    EmptyBounded();
    RunBounded(EMPTY, steps);
    var db := Run(EMPTY, steps);
    KeyedEligibleIffSatisfied(db.tasks[id], caps);
    ClaimGuarantee(db, caps, limit, locked, rounds);
  }
}
