/** The task-lease protocol as a state machine: every transaction that touches the tables is one step,
    and any step may present any arguments at any time. */
module Protocol {
  import opened Wrappers
  import opened Orders
  import opened States
  import opened Tables
  import opened Transitions
  import opened Completion
  import opened Claim
  import opened Rounds
  import opened Grants
  import opened Reap
  import opened Tasks
  import opened Finalize
  import opened Ledger
  import R = Retry

  // A worker may present any (task, attempt, worker) token, granted long ago or never: that covers
  // pauses, partitions and zombies. Locked rows, fresh ids and random draws are free choices.
  datatype Step =
    | Tick(d: nat)
    | AddTenant(tenant: TenantId, limits: Tenant)
    | Submission(request: Request, id: TaskId, env: Ambient)
    | Claiming(worker: WorkerId, limit: nat, ttl: nat, caps: seq<string>, locked: set<TaskId>, rounds: nat)
    | Renewal(id: TaskId, attempt: nat, worker: WorkerId, ttl: nat)
    | Finishing(id: TaskId, attempt: nat, worker: WorkerId, run: RunOutcome, cancelled: bool, u: R.Unit, v: R.Unit)
    | HandBack(id: TaskId, attempt: nat, worker: WorkerId, reason: string)
    | Note(id: TaskId, kind: EventType, noted: Option<nat>, author: Option<WorkerId>)
    | Recovery(phase: Phase, id: TaskId)
    | Cancellation(id: TaskId)
    | AgentSweep(versions: set<VersionId>)

  function MaxAttemptsOf(db: Db, id: TaskId): nat {
    if id in db.tasks then db.tasks[id].maxAttempts else 0
  }

  function Apply(db: Db, s: Step): Db {
    match s
    case Tick(d) => db.(now := db.now + d)
    case AddTenant(tenant, limits) =>
      if tenant in db.tenants then db else db.(tenants := db.tenants[tenant := limits])
    case Submission(request, id, env) => ApiSubmittedDb(db, request, id, env)
    case Claiming(worker, limit, ttl, caps, locked, rounds) => ClaimTo(db, worker, limit, ttl, caps, locked, rounds)
    case Renewal(id, attempt, worker, ttl) => Renew(db, id, attempt, worker, ttl).0
    case Finishing(id, attempt, worker, run, cancelled, u, v) =>
      Complete(db, id, attempt, worker, EndingFor(run, cancelled, attempt, MaxAttemptsOf(db, id), u, v)).0
    case HandBack(id, attempt, worker, reason) => Complete(db, id, attempt, worker, Abandon(reason)).0
    case Note(id, kind, noted, author) => if Announces(kind).Some? then db else Recorded(db, id, kind, noted, author)
    case Recovery(phase, id) => ReapOne(db, phase, id)
    case Cancellation(id) => CancelTo(db, id).0
    case AgentSweep(versions) => CancelAgentTo(db, versions)
  }

  function Run(db: Db, steps: seq<Step>): Db {
    if steps == [] then db else Apply(Run(db, steps[..|steps| - 1]), steps[|steps| - 1])
  }

  const EMPTY: Db := Db(0, map[], map[], map[], [])

  // ---- every step keeps the tables coherent and only adds history -------------------------------------

  lemma EndedRowMoves(t: Task, e: Ending, now: Time)
    requires t.state == Running && t.result.None?
    ensures var t' := EndedRow(t, e, now);
      && RowForward(t, t') && t'.attempt == t.attempt && t'.maxAttempts == t.maxAttempts && t'.firstStartedAt == t.firstStartedAt
      && t'.state == Target(e) != Running && t'.leaseWorker.None? && t'.leaseExpiresAt.None?
      && (t'.result.Some? <==> t'.state == Succeeded)
  {}

  lemma EndWritten(db: Db, id: TaskId, worker: WorkerId, e: Ending)
    requires id in db.tasks
    ensures var t := EndedRow(db.tasks[id], e, db.now); var event := EndEvent(t, id, worker, e);
      && event.task == id && Announces(event.kind) == Some(t.state) && event.attempt == Some(t.attempt)
      && (OutcomeOf(e) == DidSucceed <==> t.state == Succeeded) && (t.state == Queued ==> e.Retry? || OutcomeOf(e) == WasAbandoned)
      && EndedDb(db, id, worker, e) == db.(tasks := db.tasks[id := t], events := db.events + [event] + [],
           attempts := Finished(db.attempts, AttemptKey(id, t.attempt), OutcomeOf(e), AttemptError(e), db.now))
  {
    var event := EndEvent(EndedRow(db.tasks[id], e, db.now), id, worker, e);
    assert db.events + [event] + [] == db.events + [event];
  }

  lemma EndedCoherent(db: Db, id: TaskId, worker: WorkerId, e: Ending)
    requires Coherent(db) && id in db.tasks && db.tasks[id].state == Running
    requires e.Retry? ==> db.tasks[id].attempt < db.tasks[id].maxAttempts
    ensures Coherent(EndedDb(db, id, worker, e)) && Forward(db, EndedDb(db, id, worker, e))
  {
    assert Sound(db, id);
    EndedRowMoves(db.tasks[id], e, db.now);
    EndWritten(db, id, worker, e);
    EndAttempt(db, EndedDb(db, id, worker, e), id, EndedRow(db.tasks[id], e, db.now), OutcomeOf(e), AttemptError(e),
               EndEvent(EndedRow(db.tasks[id], e, db.now), id, worker, e), []);
  }

  lemma CompleteCoherent(db: Db, id: TaskId, attempt: nat, worker: WorkerId, e: Ending)
    requires Coherent(db) && (e.Retry? ==> attempt < MaxAttemptsOf(db, id))
    ensures Coherent(Complete(db, id, attempt, worker, e).0) && Forward(db, Complete(db, id, attempt, worker, e).0)
  {
    CompleteShape(db, id, attempt, worker, e);
    if Holds(db, id, attempt, worker) {
      EndedCoherent(db, id, worker, e);
    }
  }

  lemma RecoveredCoherent(db: Db, phase: Phase, id: TaskId)
    requires Coherent(db) && id in db.tasks && db.tasks[id].state == Running
    ensures Coherent(Recovered(db, phase, id)) && Forward(db, Recovered(db, phase, id))
  {
    var t := db.tasks[id];
    assert Sound(db, id);
    EndAttempt(db, Recovered(db, phase, id), id, ReapedRow(t, phase, db.now), WasLost, Some(ErrorOf(phase)),
               RecoveryEvent(t, id), [Event(id, Some(t.attempt), WorkerLost, t.leaseWorker)]);
  }

  lemma ReapCoherent(db: Db, phase: Phase, id: TaskId)
    requires Coherent(db)
    ensures Coherent(ReapOne(db, phase, id)) && Forward(db, ReapOne(db, phase, id))
  {
    ReapOneShape(db, phase, id);
    if id in db.tasks && Overdue(db.tasks[id], phase, db.now) {
      RecoveredCoherent(db, phase, id);
    }
  }

  lemma InsertCoherent(db: Db, r: Request, id: TaskId)
    requires Coherent(db) && Insertable(db, r, id)
    ensures Coherent(Inserted(db, r, id)) && Forward(db, Inserted(db, r, id))
  {
    InsertRowCoherent(db, id, NewTask(r, db.now));
  }

  lemma NewRowSound(db: Db, after: Db, id: TaskId)
    requires Coherent(db) && id !in db.tasks && id in after.tasks && after.attempts == db.attempts
    requires var t := after.tasks[id]; RowOk(t) && t.state == Queued && t.attempt == 0 && t.maxAttempts >= 1
    requires Replay(after.events, id) == At(Queued, 0)
    ensures Sound(after, id)
  {
    assert forall n: nat :: Row(db.attempts, id, n).None?;
  }

  lemma OldRowSound(db: Db, after: Db, id: TaskId, other: TaskId)
    requires id != other && other in db.tasks && other in after.tasks && after.tasks[other] == db.tasks[other]
    requires Sound(db, other) && TouchesBeside(db, after, id)
    ensures Sound(after, other)
  {
    OthersStaySound(db, after, id, other);
  }

  lemma InsertRowCoherent(db: Db, id: TaskId, t: Task)
    requires Coherent(db) && id !in db.tasks
    requires RowOk(t) && t.state == Queued && t.attempt == 0 && t.maxAttempts >= 1
    ensures var after := db.(tasks := db.tasks[id := t], events := db.events + [Event(id, Some(0), TaskCreated, None)]);
            Coherent(after) && Forward(db, after)
  {
    var e := Event(id, Some(0), TaskCreated, None);
    var after := db.(tasks := db.tasks[id := t], events := db.events + [e]);
    EventsOfTask(db, after, id, [e]);
    ReplaySnoc(db.events, e, id);
    NewRowSound(db, after, id);
    forall other | other in db.tasks ensures Sound(after, other) {
      OldRowSound(db, after, id, other);
    }
    forall other: TaskId | other !in after.tasks ensures Replay(after.events, other) == Blank {
      ReplaySnoc(db.events, e, other);
    }
    RowAdded(db, after, id, t);
  }

  lemma RowAdded(db: Db, after: Db, id: TaskId, t: Task)
    requires id !in db.tasks && after == db.(tasks := db.tasks[id := t], events := after.events) && db.events <= after.events
    ensures Forward(db, after)
  {}

  lemma {:induction false} GrantAllCoherent(db: Db, ids: seq<TaskId>, worker: WorkerId, ttl: nat)
    requires Coherent(db) && Distinct(ids)
    requires forall id <- ids :: id in db.tasks && db.tasks[id].state == Queued
    ensures Coherent(GrantAll(db, ids, worker, ttl)) && Forward(db, GrantAll(db, ids, worker, ttl))
  {
    if ids == [] {
    } else {
      var front, last := ids[..|ids| - 1], ids[|ids| - 1];
      GrantAllCoherent(db, front, worker, ttl);
      GrantedLater(db, ids, worker, ttl);
      GrantCoherent(GrantAll(db, front, worker, ttl), last, worker, ttl);
      ForwardTransitive(db, GrantAll(db, front, worker, ttl), GrantAll(db, ids, worker, ttl));
    }
  }

  lemma GrantedLater(db: Db, ids: seq<TaskId>, worker: WorkerId, ttl: nat)
    requires Distinct(ids) && ids != [] && forall id <- ids :: id in db.tasks
    ensures var before := GrantAll(db, ids[..|ids| - 1], worker, ttl); var last := ids[|ids| - 1];
            last in before.tasks && before.tasks[last] == db.tasks[last]
  {
    GrantStep(db, ids, |ids| - 1, worker, ttl);
  }

  lemma NoDuplicates(db: Db, ids: seq<TaskId>)
    requires Coherent(db) && forall id <- ids :: id in db.tasks && db.tasks[id].state == Queued
    ensures !Duplicate(db, ids)
  {
    forall id | id in ids ensures AttemptKey(id, db.tasks[id].attempt + 1) !in db.attempts {
      GrantCoherent(db, id, "", 0);
    }
  }

  /** A claim grants only QUEUED rows and never meets the duplicate-execution guard. */
  lemma ClaimCoherent(db: Db, worker: WorkerId, limit: nat, ttl: nat, caps: seq<string>, locked: set<TaskId>, rounds: nat)
    requires Coherent(db)
    ensures var ids := ClaimWithin(db, caps, limit, locked, rounds); var after := ClaimTo(db, worker, limit, ttl, caps, locked, rounds);
      && Coherent(after) && Forward(db, after)
      && after == GrantAll(db, ids, worker, ttl)
      && Distinct(ids) && forall id <- ids :: id in db.tasks && db.tasks[id].state == Queued
  {
    ClaimGuarantee(db, caps, limit, locked, rounds);
    GrantAllCoherent(db, ClaimWithin(db, caps, limit, locked, rounds), worker, ttl);
    NoDuplicates(db, ClaimWithin(db, caps, limit, locked, rounds));
  }

  lemma FlagCoherent(db: Db, id: TaskId)
    requires Coherent(db) && id in db.tasks && db.tasks[id].state == Running
    ensures Coherent(Flagged(db, id)) && Forward(db, Flagged(db, id))
  {
    var t := db.tasks[id].(cancelRequested := true);
    MarkCoherent(db, Flagged(db, id), id, t, [Event(id, Some(t.attempt), CancelRequested, None)]);
  }

  lemma CancelCoherent(db: Db, id: TaskId)
    requires Coherent(db)
    ensures Coherent(CancelTo(db, id).0) && Forward(db, CancelTo(db, id).0)
  {
    CancelShape(db, id);
    var after := CancelTo(db, id).0;
    if id in db.tasks && db.tasks[id].state == Queued {
      var t := CancelledRow(db.tasks[id], db.now);
      CancelQueued(db, after, id, t, Event(id, Some(t.attempt), TaskCancelled, Or(t.leaseWorker, None)));
    } else if id in db.tasks && db.tasks[id].state == Running && !db.tasks[id].cancelRequested {
      FlagCoherent(db, id);
    }
  }

  lemma SweptQueuedCoherent(db: Db, id: TaskId)
    requires Coherent(db) && id in db.tasks && db.tasks[id].state == Queued
    ensures Coherent(SweptQueued(db, id)) && Forward(db, SweptQueued(db, id))
  {
    var after := SweptQueued(db, id);
    CancelQueued(db, after, id, after.tasks[id], Event(id, Some(after.tasks[id].attempt), TaskCancelled, None));
  }

  /** The first half of the agent sweep ends exactly the listed rows. */
  lemma {:induction false} SweepQueuedEffect(db: Db, ids: seq<TaskId>)
    requires Distinct(ids) && forall id <- ids :: id in db.tasks
    ensures var after := SweepQueued(db, ids);
      && after.tasks.Keys == db.tasks.Keys && after.now == db.now && after.tenants == db.tenants
      && (forall id <- db.tasks | id !in ids :: after.tasks[id] == db.tasks[id])
      && (forall id <- ids :: after.tasks[id].state == Cancelled)
  {
    if ids == [] {
    } else {
      var front, last := ids[..|ids| - 1], ids[|ids| - 1];
      SweepQueuedEffect(db, front);
      assert ids == front + [last] && last !in front;
    }
  }

  lemma {:induction false} SweepQueuedCoherent(db: Db, ids: seq<TaskId>)
    requires Coherent(db) && Distinct(ids)
    requires forall id <- ids :: id in db.tasks && db.tasks[id].state == Queued
    ensures Coherent(SweepQueued(db, ids)) && Forward(db, SweepQueued(db, ids))
  {
    if ids == [] {
    } else {
      var front, last := ids[..|ids| - 1], ids[|ids| - 1];
      SweepQueuedCoherent(db, front);
      SweepQueuedEffect(db, front);
      assert last !in front;
      SweptQueuedCoherent(SweepQueued(db, front), last);
      ForwardTransitive(db, SweepQueued(db, front), SweepQueued(db, ids));
    }
  }

  lemma {:induction false} SweepRunningEffect(db: Db, ids: seq<TaskId>)
    requires forall id <- ids :: id in db.tasks
    ensures var after := SweepRunning(db, ids);
      && after.tasks.Keys == db.tasks.Keys && after.now == db.now && after.tenants == db.tenants
      && (forall id <- db.tasks :: after.tasks[id] == if id in ids then db.tasks[id].(cancelRequested := true) else db.tasks[id])
  {
    if ids == [] {
    } else {
      var front, last := ids[..|ids| - 1], ids[|ids| - 1];
      SweepRunningEffect(db, front);
      assert ids == front + [last];
      var before := SweepRunning(db, front);
      assert SweepRunning(db, ids).tasks == before.tasks[last := before.tasks[last].(cancelRequested := true)];
    }
  }

  lemma {:induction false} SweepRunningCoherent(db: Db, ids: seq<TaskId>)
    requires Coherent(db) && forall id <- ids :: id in db.tasks && db.tasks[id].state == Running
    ensures Coherent(SweepRunning(db, ids)) && Forward(db, SweepRunning(db, ids))
  {
    if ids == [] {
    } else {
      var front, last := ids[..|ids| - 1], ids[|ids| - 1];
      SweepRunningCoherent(db, front);
      SweepRunningEffect(db, front);
      FlagCoherent(SweepRunning(db, front), last);
      ForwardTransitive(db, SweepRunning(db, front), SweepRunning(db, ids));
    }
  }

  lemma RenewCoherent(db: Db, id: TaskId, attempt: nat, worker: WorkerId, ttl: nat)
    requires Coherent(db)
    ensures Coherent(Renew(db, id, attempt, worker, ttl).0) && Forward(db, Renew(db, id, attempt, worker, ttl).0)
  {
    if Renewable(db, id, attempt, worker) {
      ExtendedCoherent(db, Renew(db, id, attempt, worker, ttl).0, id, db.now + Seconds(ttl));
    }
  }

  lemma ExtendedCoherent(db: Db, after: Db, id: TaskId, at: Time)
    requires Coherent(db) && id in db.tasks && db.tasks[id].state == Running && db.tasks[id].leaseExpiresAt.Some?
    requires after == db.(tasks := db.tasks[id := db.tasks[id].(leaseExpiresAt := Some(at))])
    ensures Coherent(after) && Forward(db, after)
  {
    assert db.events + [] == db.events;
    MarkCoherent(db, after, id, db.tasks[id].(leaseExpiresAt := Some(at)), []);
  }

  lemma NoteCoherent(db: Db, id: TaskId, kind: EventType, noted: Option<nat>, author: Option<WorkerId>)
    requires Coherent(db) && Announces(kind).None?
    ensures Coherent(Recorded(db, id, kind, noted, author)) && Forward(db, Recorded(db, id, kind, noted, author))
  {
    if id in db.tasks {
      assert db.tasks[id := db.tasks[id]] == db.tasks;
      MarkCoherent(db, Recorded(db, id, kind, noted, author), id, db.tasks[id], [Event(id, noted, kind, author)]);
    }
  }

  lemma SubmissionCoherent(db: Db, r: Request, id: TaskId, env: Ambient)
    requires Coherent(db)
    ensures var after := ApiSubmittedDb(db, r, id, env); Coherent(after) && Forward(db, after)
  {
    if ApiSubmittedDb(db, r, id, env) != db {
      InsertCoherent(db, Traced(r, env), id);
    }
  }

  lemma InOrderFacts(ids: set<TaskId>)
    ensures Distinct(InOrder(ids)) && forall id :: id in InOrder(ids) <==> id in ids
  {
    AscendingIncreases(ids, Less);
  }

  lemma AgentSweepCoherent(db: Db, versions: set<VersionId>)
    requires Coherent(db)
    ensures Coherent(CancelAgentTo(db, versions)) && Forward(db, CancelAgentTo(db, versions))
  {
    var queued := InOrder(AgentQueued(db.tasks, versions));
    var running := InOrder(AgentRunning(db.tasks, versions));
    InOrderFacts(AgentQueued(db.tasks, versions));
    InOrderFacts(AgentRunning(db.tasks, versions));
    SweepQueuedCoherent(db, queued);
    SweepQueuedEffect(db, queued);
    var mid := SweepQueued(db, queued);
    assert forall id <- running :: id !in queued;
    SweepRunningCoherent(mid, running);
    ForwardTransitive(db, mid, CancelAgentTo(db, versions));
  }

  lemma ClockCoherent(db: Db, d: nat)
    requires Coherent(db)
    ensures Coherent(db.(now := db.now + d)) && Forward(db, db.(now := db.now + d))
  {
    forall id | id in db.tasks ensures Sound(db.(now := db.now + d), id) { assert Sound(db, id); }
  }

  lemma TenantCoherent(db: Db, tenant: TenantId, limits: Tenant)
    requires Coherent(db) && tenant !in db.tenants
    ensures var after := db.(tenants := db.tenants[tenant := limits]); Coherent(after) && Forward(db, after)
  {
    var after := db.(tenants := db.tenants[tenant := limits]);
    forall id | id in db.tasks ensures Sound(after, id) { assert Sound(db, id); }
  }

  lemma PlainStepCoherent(db: Db, s: Step)
    requires Coherent(db) && (s.Tick? || s.AddTenant? || s.Note? || s.Submission?)
    ensures Coherent(Apply(db, s)) && Forward(db, Apply(db, s))
  {
    match s
    case Tick(d) => ClockCoherent(db, d);
    case AddTenant(tenant, limits) => AddTenantCoherent(db, tenant, limits);
    case Submission(request, id, env) => SubmissionCoherent(db, request, id, env);
    case Note(id, kind, noted, author) => NoteStepCoherent(db, id, kind, noted, author);
  }

  lemma AddTenantCoherent(db: Db, tenant: TenantId, limits: Tenant)
    requires Coherent(db)
    ensures var after := Apply(db, AddTenant(tenant, limits)); Coherent(after) && Forward(db, after)
  {
    if tenant !in db.tenants { TenantCoherent(db, tenant, limits); }
  }

  lemma NoteStepCoherent(db: Db, id: TaskId, kind: EventType, noted: Option<nat>, author: Option<WorkerId>)
    requires Coherent(db)
    ensures var after := Apply(db, Note(id, kind, noted, author)); Coherent(after) && Forward(db, after)
  {
    if Announces(kind).None? { NoteCoherent(db, id, kind, noted, author); }
  }

  lemma FinishingCoherent(db: Db, s: Step)
    requires Coherent(db) && s.Finishing?
    ensures Coherent(Apply(db, s)) && Forward(db, Apply(db, s))
  {
    var budget := MaxAttemptsOf(db, s.id);
    RetryWithinBudget(s.run, s.cancelled, s.attempt, budget, s.u, s.v);
    CompleteCoherent(db, s.id, s.attempt, s.worker, EndingFor(s.run, s.cancelled, s.attempt, budget, s.u, s.v));
  }

  /** Whatever a step does, the three tables still tell one story, and history is only added to. */
  lemma StepCoherent(db: Db, s: Step)
    requires Coherent(db)
    ensures Coherent(Apply(db, s)) && Forward(db, Apply(db, s))
  {
    match s
    case Claiming(worker, limit, ttl, caps, locked, rounds) => ClaimCoherent(db, worker, limit, ttl, caps, locked, rounds);
    case Renewal(id, attempt, worker, ttl) => RenewCoherent(db, id, attempt, worker, ttl);
    case Finishing(_, _, _, _, _, _, _) => FinishingCoherent(db, s);
    case HandBack(id, attempt, worker, reason) => CompleteCoherent(db, id, attempt, worker, Abandon(reason));
    case Recovery(phase, id) => ReapCoherent(db, phase, id);
    case Cancellation(id) => CancelCoherent(db, id);
    case AgentSweep(versions) => AgentSweepCoherent(db, versions);
    case _ => PlainStepCoherent(db, s);
  }

  /** The ledger, the event log, the budget and the lease columns agree after every run. */
  lemma {:induction false} RunCoherent(db: Db, steps: seq<Step>)
    requires Coherent(db)
    ensures Coherent(Run(db, steps)) && Forward(db, Run(db, steps))
  {
    if steps == [] {
    } else {
      RunCoherent(db, steps[..|steps| - 1]);
      StepCoherent(Run(db, steps[..|steps| - 1]), steps[|steps| - 1]);
      ForwardTransitive(db, Run(db, steps[..|steps| - 1]), Run(db, steps));
    }
  }

  lemma EmptyCoherent()
    ensures Coherent(EMPTY)
  {}
}
