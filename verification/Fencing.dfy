/** Safety over whole runs: the ledger, the log, fencing, one committed outcome, the attempt budget. */
module Fencing {
  import opened Wrappers
  import opened Orders
  import opened States
  import opened Tables
  import opened Transitions
  import opened Completion
  import opened Tasks
  import opened Ledger
  import opened Protocol
  import opened Moves

  // ---- the three tables in every reachable state -------------------------------------------------------

  /** The ledger of a task in every reachable state. */
  lemma AttemptLedger(steps: seq<Step>, id: TaskId)
    requires id in Run(EMPTY, steps).tasks
    ensures var db := Run(EMPTY, steps); var t := db.tasks[id];
      && (t.state in {Running, Succeeded} ==> t.attempt >= 1)
      && (forall n: nat :: AttemptKey(id, n) in db.attempts <==> 1 <= n <= t.attempt)
      && (forall n: nat | 1 <= n <= t.attempt ::
            && (db.attempts[AttemptKey(id, n)].outcome.None? <==> n == t.attempt && t.state == Running)
            && (db.attempts[AttemptKey(id, n)].outcome == Some(DidSucceed) <==> n == t.attempt && t.state == Succeeded))
      && (t.state == Running ==> t.leaseWorker == Some(db.attempts[AttemptKey(id, t.attempt)].worker))
  {
    EmptyCoherent();
    RunCoherent(EMPTY, steps);
    var db := Run(EMPTY, steps);
    assert Sound(db, id);
    forall n: nat ensures AttemptKey(id, n) in db.attempts <==> 1 <= n <= db.tasks[id].attempt {
      assert Row(db.attempts, id, n).Some? <==> AttemptKey(id, n) in db.attempts;
    }
    forall n: nat | 1 <= n <= db.tasks[id].attempt
      ensures OutcomeAt(db.attempts, id, n) == db.attempts[AttemptKey(id, n)].outcome {}
  }

  /** Replaying the event log, noise included, gives the stored state and attempt of every task, and
      finds only legal moves on the way. */
  lemma EventReplay(steps: seq<Step>, id: TaskId)
    ensures var db := Run(EMPTY, steps);
            Replay(db.events, id) == if id in db.tasks then At(db.tasks[id].state, db.tasks[id].attempt) else Blank
  {
    EmptyCoherent();
    RunCoherent(EMPTY, steps);
    if id in Run(EMPTY, steps).tasks {
      assert Sound(Run(EMPTY, steps), id);
    }
  }

  lemma {:induction false} RunSplit(db: Db, a: seq<Step>, b: seq<Step>)
    ensures Run(db, a + b) == Run(Run(db, a), b)
  {
    if b == [] {
      assert a + b == a;
    } else {
      assert (a + b)[..|a + b| - 1] == a + b[..|b| - 1];
      RunSplit(db, a, b[..|b| - 1]);
    }
  }

  // ---- fencing -----------------------------------------------------------------------------------------

  /** The fence, both ways: a token is accepted exactly while its tenure is live, and a refused call
      changes nothing. A renewal also needs an unexpired lease; a completion does not. */
  lemma FenceIff(db: Db, id: TaskId, attempt: nat, worker: WorkerId, e: Ending, ttl: nat)
    ensures var (after, res) := Complete(db, id, attempt, worker, e);
            (res.Applied? <==> Holds(db, id, attempt, worker)) && (!res.Applied? ==> after == db)
    ensures var (after, row) := Renew(db, id, attempt, worker, ttl);
            (row.Some? <==> Renewable(db, id, attempt, worker)) && (row.None? ==> after == db)
  {
    CompleteMoves(db, id, attempt, worker, e);
  }

  /** The row of this attempt is open and belongs to this worker. */
  predicate OpenRow(attempts: map<AttemptKey, AttemptRow>, id: TaskId, attempt: nat, worker: WorkerId) {
    var key := AttemptKey(id, attempt);
    key in attempts && attempts[key].outcome.None? && attempts[key].worker == worker
  }

  lemma HeldIffOpen(db: Db, id: TaskId, attempt: nat, worker: WorkerId)
    requires Coherent(db)
    ensures Holds(db, id, attempt, worker) <==> OpenRow(db.attempts, id, attempt, worker)
  {
    var key := AttemptKey(id, attempt);
    if key in db.attempts { assert key.task in db.tasks; }
    if id in db.tasks {
      assert Sound(db, id);
      assert Row(db.attempts, id, attempt).Some? <==> key in db.attempts;
      if key in db.attempts { assert OutcomeAt(db.attempts, id, attempt) == db.attempts[key].outcome; }
    }
  }

  /** The fence in terms of the other table: in every reachable state a token is accepted by a completion
      exactly when its attempt row is open and its own, by a renewal exactly when the lease also has not
      run out, and a refused call changes no table. */
  lemma FenceOverRuns(steps: seq<Step>, id: TaskId, attempt: nat, worker: WorkerId, e: Ending, ttl: nat)
    ensures var db := Run(EMPTY, steps); var (after, res) := Complete(db, id, attempt, worker, e);
            (res.Applied? <==> OpenRow(db.attempts, id, attempt, worker)) && (!res.Applied? ==> after == db)
    ensures var db := Run(EMPTY, steps); var (after, row) := Renew(db, id, attempt, worker, ttl);
      && (row.Some? <==> OpenRow(db.attempts, id, attempt, worker) && !LeaseOver(db, id)) && (row.None? ==> after == db)
  {
    EmptyCoherent();
    RunCoherent(EMPTY, steps);
    var db := Run(EMPTY, steps);
    FenceIff(db, id, attempt, worker, e, ttl);
    HeldIffOpen(db, id, attempt, worker);
    if id in db.tasks { assert Sound(db, id); }
  }

  /** The lease of a task has run out. */
  predicate LeaseOver(db: Db, id: TaskId) {
    id in db.tasks && db.tasks[id].leaseExpiresAt.Some? && db.tasks[id].leaseExpiresAt.value <= db.now
  }

  /** A tenure that was granted and is over. */
  ghost predicate Closed(db: Db, id: TaskId, attempt: nat) {
    OutcomeAt(db.attempts, id, attempt).Some?
  }

  lemma ClosedIsNotHeld(db: Db, id: TaskId, attempt: nat, worker: WorkerId)
    requires Coherent(db) && Closed(db, id, attempt)
    ensures !Holds(db, id, attempt, worker)
  {
    if id in db.tasks { assert Sound(db, id); }
  }

  lemma ClosedStaysClosed(a: Db, b: Db, id: TaskId, attempt: nat)
    requires Forward(a, b) && Closed(a, id, attempt)
    ensures Closed(b, id, attempt) && OutcomeAt(b.attempts, id, attempt) == OutcomeAt(a.attempts, id, attempt)
  {
    assert AttemptKey(id, attempt) in a.attempts;
  }

  /** A tenure held before and not held now has its outcome written. */
  lemma LostIsClosed(a: Db, b: Db, id: TaskId, attempt: nat, worker: WorkerId)
    requires Coherent(a) && Coherent(b) && Forward(a, b)
    requires Holds(a, id, attempt, worker) && !Holds(b, id, attempt, worker)
    ensures Closed(b, id, attempt)
  {
    assert Sound(a, id) && Sound(b, id);
    var key := AttemptKey(id, attempt);
    assert Row(a.attempts, id, attempt).Some? && key in a.attempts && key in b.attempts;
    assert a.attempts[key].worker == b.attempts[key].worker;
    assert Row(b.attempts, id, attempt) == Some(b.attempts[key]);
  }

  /** Fencing over whole runs. Take any reachable moment at which a tenure was live, and any later one
      at which it is not: from then on, after any further steps whatever, the token is refused by
      renewal and by every completion, and presenting it changes no table. Its outcome, written once,
      never changes. */
  lemma EndedTenureIsFenced(start: Db, middle: seq<Step>, later: seq<Step>, id: TaskId, attempt: nat, worker: WorkerId,
                            e: Ending, ttl: nat)
    requires Coherent(start) && Holds(start, id, attempt, worker)
    requires !Holds(Run(start, middle), id, attempt, worker)
    ensures var ended := Run(start, middle); var db := Run(start, middle + later);
      && !Holds(db, id, attempt, worker)
      && Complete(db, id, attempt, worker, e).0 == db && Complete(db, id, attempt, worker, e).1.Rejected?
      && Renew(db, id, attempt, worker, ttl) == (db, None)
      && OutcomeAt(db.attempts, id, attempt) == OutcomeAt(ended.attempts, id, attempt) != None
  {
    RunSplit(start, middle, later);
    var ended := Run(start, middle);
    RunCoherent(start, middle);
    RunCoherent(ended, later);
    LostIsClosed(start, ended, id, attempt, worker);
    ClosedStaysClosed(ended, Run(ended, later), id, attempt);
    ClosedIsNotHeld(Run(ended, later), id, attempt, worker);
    CompleteMoves(Run(ended, later), id, attempt, worker, e);
  }

  /** One attempt number, one worker: the same (task, attempt) is never held by two workers, at
      whatever two moments of a run one looks. */
  lemma OneHolderPerAttempt(start: Db, steps: seq<Step>, id: TaskId, attempt: nat, w1: WorkerId, w2: WorkerId)
    requires Coherent(start) && Holds(start, id, attempt, w1) && Holds(Run(start, steps), id, attempt, w2)
    ensures w1 == w2
  {
    RunCoherent(start, steps);
    var b := Run(start, steps);
    assert Sound(start, id) && Sound(b, id);
    var key := AttemptKey(id, attempt);
    assert Row(start.attempts, id, attempt) == Some(start.attempts[key]) && key in start.attempts;
    assert Row(b.attempts, id, attempt) == Some(b.attempts[key]);
  }

  // ---- one committed outcome ---------------------------------------------------------------------------

  /** Once a task is terminal its row never changes again, result included. */
  lemma TerminalIsFinal(start: Db, steps: seq<Step>, id: TaskId)
    requires Coherent(start) && id in start.tasks && start.tasks[id].state in TERMINAL
    ensures id in Run(start, steps).tasks && Run(start, steps).tasks[id] == start.tasks[id]
  {
    RunCoherent(start, steps);
  }

  /** At most one attempt of a task is ever recorded as a success. */
  lemma OneSuccess(steps: seq<Step>, id: TaskId, m: nat, n: nat)
    requires OutcomeAt(Run(EMPTY, steps).attempts, id, m) == Some(DidSucceed)
    requires OutcomeAt(Run(EMPTY, steps).attempts, id, n) == Some(DidSucceed)
    ensures m == n
  {
    EmptyCoherent();
    RunCoherent(EMPTY, steps);
    var db := Run(EMPTY, steps);
    assert AttemptKey(id, m) in db.attempts && AttemptKey(id, n) in db.attempts;
    assert Sound(db, id);
    assert Row(db.attempts, id, m).Some? && Row(db.attempts, id, n).Some?;
  }

  /** Step `k` of the run is the winning completion: its presenter held the task at that moment under
      the attempt number the task still has, and it carried this result. */
  ghost predicate CommittedAt(steps: seq<Step>, k: nat, id: TaskId) {
    && k < |steps| && steps[k].Finishing? && steps[k].id == id && !steps[k].cancelled && steps[k].run.RanOk?
    && Holds(Run(EMPTY, steps[..k]), id, steps[k].attempt, steps[k].worker)
    && id in Run(EMPTY, steps).tasks
    && steps[k].attempt == Run(EMPTY, steps).tasks[id].attempt
    && Run(EMPTY, steps).tasks[id].result == Some(steps[k].run.result)
  }

  /** Only a success ending makes a task SUCCEEDED, and it stores the result it carries. */
  lemma SuccessIsCommitted(db: Db, s: Step, id: TaskId)
    requires Coherent(db) && id in Apply(db, s).tasks && Apply(db, s).tasks[id].state == Succeeded
    requires id !in db.tasks || db.tasks[id].state != Succeeded
    ensures s.Finishing? && s.id == id && !s.cancelled && s.run.RanOk? && Holds(db, id, s.attempt, s.worker)
    ensures Apply(db, s).tasks[id].result == Some(s.run.result) && Apply(db, s).tasks[id].attempt == s.attempt
  {
    StepMoves(db, s);
    StepsAreLegal(db, s, id);
    MovedSuccess(db, s, id, Apply(db, s).tasks[id]);
  }

  lemma MovedSuccess(db: Db, s: Step, id: TaskId, t': Task)
    requires id in db.tasks && Moved(db, s, id, db.tasks[id], t') && t'.state == Succeeded
    ensures s.Finishing? && s.id == id && !s.cancelled && s.run.RanOk? && Holds(db, id, s.attempt, s.worker)
    ensures t'.result == Some(s.run.result) && t'.attempt == s.attempt
  {}

  lemma StepKeepsTerminal(db: Db, s: Step, id: TaskId)
    requires Coherent(db) && id in db.tasks && db.tasks[id].state in TERMINAL
    ensures id in Apply(db, s).tasks && Apply(db, s).tasks[id] == db.tasks[id]
  {
    StepCoherent(db, s);
  }

  lemma RunSnoc(steps: seq<Step>, s: Step)
    ensures Run(EMPTY, steps + [s]) == Apply(Run(EMPTY, steps), s)
  {
    assert (steps + [s])[..|steps|] == steps;
  }

  lemma CommitStays(steps: seq<Step>, s: Step, k: nat, id: TaskId)
    requires CommittedAt(steps, k, id) && Coherent(Run(EMPTY, steps)) && Run(EMPTY, steps).tasks[id].state == Succeeded
    ensures CommittedAt(steps + [s], k, id)
  {
    StepKeepsTerminal(Run(EMPTY, steps), s, id);
    RunSnoc(steps, s);
    assert (steps + [s])[..k] == steps[..k];
  }

  /** The stored result of a SUCCEEDED task is the one its holder committed: some step of the run is
      that commit. */
  lemma {:induction false} ResultHasOrigin(steps: seq<Step>, id: TaskId)
    requires id in Run(EMPTY, steps).tasks && Run(EMPTY, steps).tasks[id].state == Succeeded
    ensures exists k :: CommittedAt(steps, k, id)
  {
    var n := |steps| - 1;
    var front, last := steps[..n], steps[n];
    assert steps == front + [last];
    var before := Run(EMPTY, front);
    EmptyCoherent();
    RunCoherent(EMPTY, front);
    if id in before.tasks && before.tasks[id].state == Succeeded {
      ResultHasOrigin(front, id);
      var k :| CommittedAt(front, k, id);
      CommitStays(front, last, k, id);
    } else {
      SuccessIsCommitted(before, last, id);
      assert CommittedAt(steps, n, id);
    }
  }

  // ---- who cancels ----------------------------------------------------------------------------------------

  /** The step cancelled the task: an API call or an agent sweep that found it QUEUED, or its holder. */
  predicate Cancels(db: Db, s: Step, id: TaskId) {
    && id in db.tasks
    && match s
       case Cancellation(i) => i == id && db.tasks[id].state == Queued
       case AgentSweep(versions) => db.tasks[id].state == Queued && OfAgent(db.tasks[id], versions)
       case Finishing(i, attempt, worker, _, cancelled, _, _) => i == id && cancelled && Holds(db, id, attempt, worker)
       case _ => false
  }

  lemma SweepCancels(db: Db, versions: set<VersionId>, id: TaskId)
    requires id in db.tasks && db.tasks[id].state == Queued
    ensures id in CancelAgentTo(db, versions).tasks
    ensures CancelAgentTo(db, versions).tasks[id].state == Cancelled ==> OfAgent(db.tasks[id], versions)
  {
    AgentSweepMoves(db, versions);
  }

  lemma MovedCancelled(db: Db, s: Step, id: TaskId, t': Task)
    requires id in db.tasks && Moved(db, s, id, db.tasks[id], t') && t'.state == Cancelled && !s.AgentSweep?
    ensures Cancels(db, s, id)
  {}

  lemma MovedBySweep(db: Db, s: Step, id: TaskId, t': Task)
    requires id in db.tasks && Moved(db, s, id, db.tasks[id], t') && t'.state == Cancelled && s.AgentSweep?
    ensures db.tasks[id].state == Queued
  {}

  lemma StepCancels(db: Db, s: Step, id: TaskId)
    requires Coherent(db) && id in Apply(db, s).tasks && Apply(db, s).tasks[id].state == Cancelled
    requires id !in db.tasks || db.tasks[id].state != Cancelled
    ensures Cancels(db, s, id)
  {
    StepMoves(db, s);
    StepsAreLegal(db, s, id);
    if s.AgentSweep? {
      MovedBySweep(db, s, id, Apply(db, s).tasks[id]);
      SweepCancels(db, s.versions, id);
    } else {
      MovedCancelled(db, s, id, Apply(db, s).tasks[id]);
    }
  }

  ghost predicate CancelsAt(steps: seq<Step>, k: nat, id: TaskId) {
    k < |steps| && Cancels(Run(EMPTY, steps[..k]), steps[k], id)
  }

  lemma CancelledBefore(front: seq<Step>, last: Step, k: nat, id: TaskId)
    requires CancelsAt(front, k, id)
    ensures CancelsAt(front + [last], k, id)
  {
    assert (front + [last])[..k] == front[..k];
  }

  lemma CancelledNow(front: seq<Step>, last: Step, id: TaskId)
    requires Cancels(Run(EMPTY, front), last, id)
    ensures CancelsAt(front + [last], |front|, id)
  {
    assert (front + [last])[..|front|] == front;
  }

  lemma {:induction false} CancelHasOrigin(steps: seq<Step>, id: TaskId)
    requires id in Run(EMPTY, steps).tasks && Run(EMPTY, steps).tasks[id].state == Cancelled
    ensures exists k: nat :: CancelsAt(steps, k, id)
  {
    var front, last := steps[..|steps| - 1], steps[|steps| - 1];
    FrontAndLast(steps);
    RunSnoc(front, last);
    var before := Run(EMPTY, front);
    EmptyCoherent();
    RunCoherent(EMPTY, front);
    if id in before.tasks && before.tasks[id].state == Cancelled {
      CancelHasOrigin(front, id);
      var k: nat :| CancelsAt(front, k, id);
      CancelledBefore(front, last, k, id);
    } else {
      StepCancels(before, last, id);
      CancelledNow(front, last, id);
    }
  }

  lemma CancelTakes(db: Db, s: Step, id: TaskId)
    requires Cancels(db, s, id)
    ensures id in Apply(db, s).tasks && Apply(db, s).tasks[id].state == Cancelled
  {
    match s
    case Cancellation(_) => CancelShape(db, id);
    case AgentSweep(versions) => AgentSweepMoves(db, versions);
    case Finishing(_, attempt, worker, _, _, _, _) => CompleteMoves(db, id, attempt, worker, EndingOf(db, s));
  }

  lemma {:induction false} CancelStays(steps: seq<Step>, k: nat, id: TaskId)
    requires CancelsAt(steps, k, id)
    ensures id in Run(EMPTY, steps).tasks && Run(EMPTY, steps).tasks[id].state == Cancelled
  {
    var front, last := steps[..|steps| - 1], steps[|steps| - 1];
    if k == |front| {
      CancelTakes(Run(EMPTY, front), last, id);
    } else {
      assert front[..k] == steps[..k];
      CancelStays(front, k, id);
      EmptyCoherent();
      RunCoherent(EMPTY, front);
      StepKeepsTerminal(Run(EMPTY, front), last, id);
    }
  }

  /** Over every run a task is CANCELLED exactly when some step of the run was a request that found it
      QUEUED, or a report of its own holder with the cancel event set. Recovery is no such step: the
      reaper never cancels, whatever the cancel flag of a dead worker's task says. */
  lemma CancelledIff(steps: seq<Step>, id: TaskId)
    requires id in Run(EMPTY, steps).tasks
    ensures Run(EMPTY, steps).tasks[id].state == Cancelled <==> exists k: nat :: CancelsAt(steps, k, id)
  {
    if Run(EMPTY, steps).tasks[id].state == Cancelled {
      CancelHasOrigin(steps, id);
    } else if exists k: nat :: CancelsAt(steps, k, id) {
      var k: nat :| CancelsAt(steps, k, id);
      CancelStays(steps, k, id);
    }
  }
}
