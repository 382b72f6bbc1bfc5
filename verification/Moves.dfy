/** What one step may do to one row: the only moves there are. */
module Moves {
  import opened Wrappers
  import opened States
  import opened Tables
  import opened Transitions
  import opened Completion
  import opened Claim
  import opened Rounds
  import opened Grants
  import opened Reap
  import opened Tasks
  import opened Finalize
  import opened Ledger
  import opened Protocol

  function EndingOf(db: Db, s: Step): Ending
    requires s.Finishing? || s.HandBack?
  {
    match s
    case Finishing(id, attempt, worker, run, cancelled, u, v) => EndingFor(run, cancelled, attempt, MaxAttemptsOf(db, id), u, v)
    case HandBack(id, attempt, worker, reason) => Abandon(reason)
  }

  /** The move step `s` makes on a row it changes. */
  ghost predicate Moved(db: Db, s: Step, id: TaskId, t: Task, t': Task) {
    match s
    case Claiming(worker, limit, ttl, caps, locked, rounds) =>
      Ready(t, db.now) && id !in locked && t' == GrantedRow(t, worker, ttl, db.now)
    case Renewal(i, attempt, worker, ttl) =>
      i == id && Renewable(db, id, attempt, worker) && t' == t.(leaseExpiresAt := Some(db.now + Seconds(ttl)))
    case Finishing(i, attempt, worker, run, cancelled, u, v) =>
      i == id && Holds(db, id, attempt, worker) && t' == EndedRow(t, EndingOf(db, s), db.now)
    case HandBack(i, attempt, worker, reason) =>
      i == id && Holds(db, id, attempt, worker) && t' == EndedRow(t, Abandon(reason), db.now)
    case Recovery(phase, i) => i == id && Overdue(t, phase, db.now) && t' == ReapedRow(t, phase, db.now)
    case Cancellation(i) =>
      i == id && ((t.state == Queued && t' == CancelledRow(t, db.now)) || (t.state == Running && t' == t.(cancelRequested := true)))
    case AgentSweep(versions) =>
      || (t.state == Queued && t' == CancelledRow(t, db.now).(errorClass := Some("AgentDisabled")))
      || (t.state == Running && t' == t.(cancelRequested := true))
    case _ => false
  }

  lemma CompleteMoves(db: Db, id: TaskId, attempt: nat, worker: WorkerId, e: Ending)
    ensures var (after, res) := Complete(db, id, attempt, worker, e);
      && (res.Applied? <==> Holds(db, id, attempt, worker))
      && (!res.Applied? ==> after == db && res.Rejected?)
      && (res.Applied? ==> after.tasks == db.tasks[id := EndedRow(db.tasks[id], e, db.now)])
      && (res.Applied? ==> after.attempts == Finished(db.attempts, AttemptKey(id, attempt), OutcomeOf(e), AttemptError(e), db.now))
      && after.now == db.now && after.tenants == db.tenants
  {
    CompleteShape(db, id, attempt, worker, e);
  }

  lemma {:induction false} SweptRows(db: Db, ids: seq<TaskId>)
    requires Distinct(ids) && forall id <- ids :: id in db.tasks
    ensures forall id <- ids :: id in SweepQueued(db, ids).tasks && SweepQueued(db, ids).tasks[id] ==
              CancelledRow(db.tasks[id], db.now).(errorClass := Some("AgentDisabled"))
  {
    if ids == [] {
    } else {
      var front, last := ids[..|ids| - 1], ids[|ids| - 1];
      SweptRows(db, front);
      SweepQueuedEffect(db, front);
      assert ids == front + [last] && last !in front;
    }
  }

  lemma AgentSweepMoves(db: Db, versions: set<VersionId>)
    ensures var after := CancelAgentTo(db, versions);
      && after.now == db.now && after.tenants == db.tenants && after.tasks.Keys == db.tasks.Keys
      && forall id <- db.tasks :: after.tasks[id] ==
           if id in AgentQueued(db.tasks, versions) then CancelledRow(db.tasks[id], db.now).(errorClass := Some("AgentDisabled"))
           else if id in AgentRunning(db.tasks, versions) then db.tasks[id].(cancelRequested := true)
           else db.tasks[id]
  {
    var queued := InOrder(AgentQueued(db.tasks, versions));
    var running := InOrder(AgentRunning(db.tasks, versions));
    InOrderFacts(AgentQueued(db.tasks, versions));
    InOrderFacts(AgentRunning(db.tasks, versions));
    SweptRows(db, queued);
    SweepQueuedEffect(db, queued);
    SweepRunningEffect(SweepQueued(db, queued), running);
  }

  /** A step leaves a row alone or makes the one move it stands for; only a submission adds a row,
      only a tick moves the clock, only AddTenant adds a tenant. */
  ghost predicate StepShape(db: Db, s: Step) {
    var after := Apply(db, s);
    && db.tasks.Keys <= after.tasks.Keys
    && (forall id <- db.tasks :: after.tasks[id] == db.tasks[id] || Moved(db, s, id, db.tasks[id], after.tasks[id]))
    && (!s.Submission? ==> after.tasks.Keys == db.tasks.Keys)
    && (!s.Tick? ==> after.now == db.now)
    && (!s.AddTenant? ==> after.tenants == db.tenants)
  }

  lemma ClaimMoves(db: Db, s: Step)
    requires Coherent(db) && s.Claiming?
    ensures StepShape(db, s)
  {
    ClaimCoherent(db, s.worker, s.limit, s.ttl, s.caps, s.locked, s.rounds);
    ClaimGuarantee(db, s.caps, s.limit, s.locked, s.rounds);
    GrantAllEffect(db, ClaimWithin(db, s.caps, s.limit, s.locked, s.rounds), s.worker, s.ttl);
  }

  lemma EndingMoves(db: Db, s: Step)
    requires s.Finishing? || s.HandBack?
    ensures StepShape(db, s)
  {
    CompleteMoves(db, s.id, s.attempt, s.worker, EndingOf(db, s));
  }

  lemma RecoveryMoves(db: Db, s: Step)
    requires s.Recovery?
    ensures StepShape(db, s)
  {
    ReapOneShape(db, s.phase, s.id);
  }

  lemma CancellationMoves(db: Db, s: Step)
    requires s.Cancellation?
    ensures StepShape(db, s)
  {
    CancelShape(db, s.id);
  }

  lemma SweepMoves(db: Db, s: Step)
    requires s.AgentSweep?
    ensures StepShape(db, s)
  {
    AgentSweepMoves(db, s.versions);
  }

  lemma PlainMoves(db: Db, s: Step)
    requires s.Tick? || s.AddTenant? || s.Submission? || s.Renewal? || s.Note?
    ensures StepShape(db, s)
  {}

  /** Every step of the protocol has that shape. */
  lemma StepMoves(db: Db, s: Step)
    requires Coherent(db)
    ensures StepShape(db, s)
  {
    match s
    case Claiming(_, _, _, _, _, _) => ClaimMoves(db, s);
    case Finishing(_, _, _, _, _, _, _) => EndingMoves(db, s);
    case HandBack(_, _, _, _) => EndingMoves(db, s);
    case Recovery(_, _) => RecoveryMoves(db, s);
    case Cancellation(_) => CancellationMoves(db, s);
    case AgentSweep(_) => SweepMoves(db, s);
    case _ => PlainMoves(db, s);
  }

  lemma MoveIsLegal(db: Db, s: Step, id: TaskId, t': Task)
    requires id in db.tasks && Moved(db, s, id, db.tasks[id], t')
    ensures t'.state == db.tasks[id].state || IsLegal(db.tasks[id].state, t'.state)
  {}

  /** No step, not even the claim and the agent sweep, which bypass `transition`, makes an illegal move. */
  lemma StepsAreLegal(db: Db, s: Step, id: TaskId)
    requires Coherent(db) && id in Apply(db, s).tasks
    ensures var to := Apply(db, s).tasks[id].state;
            if id in db.tasks then to == db.tasks[id].state || IsLegal(db.tasks[id].state, to) else to == Queued
  {
    StepMoves(db, s);
    if id !in db.tasks {
      assert s.Submission?;
    } else if Apply(db, s).tasks[id] != db.tasks[id] {
      MoveIsLegal(db, s, id, Apply(db, s).tasks[id]);
    }
  }
}
