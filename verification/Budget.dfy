/** The attempt budget over whole runs: what hand-backs can do to it, and nothing else can. */
module Budget {
  import opened Wrappers
  import opened Orders
  import opened States
  import opened Tables
  import opened Claim
  import opened Reap
  import opened Tasks
  import opened Finalize
  import opened Ledger
  import opened Protocol
  import opened Moves
  import opened Fencing

  // ---- claims ------------------------------------------------------------------------------------------

  /** Only a claim raises the attempt number, by one, and it leaves the task RUNNING. */
  lemma MovedAttempt(db: Db, s: Step, id: TaskId, t': Task)
    requires id in db.tasks && Moved(db, s, id, db.tasks[id], t')
    ensures t'.attempt == db.tasks[id].attempt + (if db.tasks[id].state == Queued && t'.state == Running then 1 else 0)
  {}

  /** How often the run claimed the task. */
  ghost function ClaimsOf(steps: seq<Step>, id: TaskId): nat {
    if steps == [] then 0 else
      var a, b := Run(EMPTY, steps[..|steps| - 1]), Run(EMPTY, steps);
      ClaimsOf(steps[..|steps| - 1], id) +
        if id in a.tasks && id in b.tasks && a.tasks[id].state == Queued && b.tasks[id].state == Running then 1 else 0
  }

  lemma StepClaims(db: Db, s: Step, id: TaskId)
    requires Coherent(db) && id in Apply(db, s).tasks
    ensures var t := Apply(db, s).tasks[id];
            if id in db.tasks then t.attempt == db.tasks[id].attempt + (if db.tasks[id].state == Queued && t.state == Running then 1 else 0)
            else t.attempt == 0
  {
    StepMoves(db, s);
    if id in db.tasks && Apply(db, s).tasks[id] != db.tasks[id] {
      MovedAttempt(db, s, id, Apply(db, s).tasks[id]);
    }
  }

  lemma {:induction false} UnknownIsUnclaimed(steps: seq<Step>, id: TaskId)
    requires id !in Run(EMPTY, steps).tasks
    ensures ClaimsOf(steps, id) == 0
  {
    if steps == [] {
    } else {
      EmptyCoherent();
      RunCoherent(EMPTY, steps[..|steps| - 1]);
      StepCoherent(Run(EMPTY, steps[..|steps| - 1]), steps[|steps| - 1]);
      UnknownIsUnclaimed(steps[..|steps| - 1], id);
    }
  }

  // ---- hand-backs --------------------------------------------------------------------------------------

  /** Which attempt row a step may mark ABANDONED. */
  ghost predicate MarksOnly(db: Db, after: Db, id: TaskId, extra: Option<nat>) {
    forall m: nat :: OutcomeAt(after.attempts, id, m) == Some(WasAbandoned) ==>
      OutcomeAt(db.attempts, id, m) == Some(WasAbandoned) || extra == Some(m)
  }

  function HandedBack(db: Db, s: Step, id: TaskId): Option<nat> {
    if s.HandBack? && s.id == id && Holds(db, id, s.attempt, s.worker) then Some(s.attempt) else None
  }

  lemma EndingOutcomes(db: Db, s: Step, id: TaskId)
    requires s.Finishing? || s.HandBack?
    ensures MarksOnly(db, Apply(db, s), id, HandedBack(db, s, id))
  {
    CompleteMoves(db, s.id, s.attempt, s.worker, EndingOf(db, s));
  }

  lemma RecoveryOutcomes(db: Db, phase: Phase, i: TaskId, id: TaskId)
    ensures MarksOnly(db, ReapOne(db, phase, i), id, None)
  {
    ReapOneShape(db, phase, i);
  }

  lemma ClaimOutcomes(db: Db, s: Step, id: TaskId)
    requires Coherent(db) && s.Claiming?
    ensures MarksOnly(db, Apply(db, s), id, None)
  {
    ClaimCoherent(db, s.worker, s.limit, s.ttl, s.caps, s.locked, s.rounds);
    GrantOutcomes(db, ClaimWithin(db, s.caps, s.limit, s.locked, s.rounds), s.worker, s.ttl, id);
  }

  lemma CancellationOutcomes(db: Db, i: TaskId, id: TaskId)
    ensures MarksOnly(db, CancelTo(db, i).0, id, None)
  {
    CancelShape(db, i);
  }

  lemma OtherOutcomes(db: Db, s: Step, id: TaskId)
    requires s.Tick? || s.AddTenant? || s.Submission? || s.Renewal? || s.Note?
    ensures MarksOnly(db, Apply(db, s), id, None)
  {}

  lemma StepOutcomes(db: Db, s: Step, id: TaskId)
    requires Coherent(db) && id in db.tasks
    ensures MarksOnly(db, Apply(db, s), id, HandedBack(db, s, id))
  {
    match s
    case Claiming(_, _, _, _, _, _) => ClaimOutcomes(db, s, id);
    case Finishing(_, _, _, _, _, _, _) => EndingOutcomes(db, s, id);
    case HandBack(_, _, _, _) => EndingOutcomes(db, s, id);
    case Recovery(phase, i) => RecoveryOutcomes(db, phase, i, id);
    case Cancellation(i) => CancellationOutcomes(db, i, id);
    case AgentSweep(versions) => SweepAttempts(db, versions);
    case _ => OtherOutcomes(db, s, id);
  }

  lemma {:induction false} GrantOutcomes(db: Db, ids: seq<TaskId>, worker: WorkerId, ttl: nat, id: TaskId)
    ensures forall m: nat :: OutcomeAt(GrantAll(db, ids, worker, ttl).attempts, id, m).Some? ==>
              OutcomeAt(GrantAll(db, ids, worker, ttl).attempts, id, m) == OutcomeAt(db.attempts, id, m)
  {
    if ids == [] {
    } else {
      GrantOutcomes(db, ids[..|ids| - 1], worker, ttl, id);
    }
  }

  lemma {:induction false} SweepKeepsAttempts(db: Db, queued: seq<TaskId>, running: seq<TaskId>)
    ensures SweepRunning(SweepQueued(db, queued), running).attempts == db.attempts
    decreases |running|, |queued|
  {
    if running != [] {
      SweepKeepsAttempts(db, queued, running[..|running| - 1]);
    } else if queued != [] {
      SweepKeepsAttempts(db, queued[..|queued| - 1], []);
    }
  }

  lemma SweepAttempts(db: Db, versions: set<VersionId>)
    ensures CancelAgentTo(db, versions).attempts == db.attempts
  {
    SweepKeepsAttempts(db, InOrder(AgentQueued(db.tasks, versions)), InOrder(AgentRunning(db.tasks, versions)));
  }

  /** Step `k` of the run handed attempt `n` back, and was accepted. */
  ghost predicate HandedBackAt(steps: seq<Step>, k: nat, id: TaskId, n: nat) {
    k < |steps| && HandedBack(Run(EMPTY, steps[..k]), steps[k], id) == Some(n)
  }

  lemma HandedBackStays(front: seq<Step>, last: Step, k: nat, id: TaskId, n: nat)
    requires HandedBackAt(front, k, id, n)
    ensures HandedBackAt(front + [last], k, id, n)
  {
    assert (front + [last])[..k] == front[..k];
  }

  lemma NoRowsBefore(db: Db, s: Step, id: TaskId, n: nat)
    requires Coherent(db) && id !in db.tasks
    ensures OutcomeAt(Apply(db, s).attempts, id, n).None?
  {
    StepCoherent(db, s);
    StepMoves(db, s);
    if id in Apply(db, s).tasks {
      StepClaims(db, s, id);
      assert Sound(Apply(db, s), id);
      assert Row(Apply(db, s).attempts, id, n).None?;
    }
  }

  /** Only an accepted hand-back of that very attempt makes an attempt ABANDONED. */
  lemma {:induction false} AbandonHasOrigin(steps: seq<Step>, id: TaskId, n: nat)
    requires OutcomeAt(Run(EMPTY, steps).attempts, id, n) == Some(WasAbandoned)
    ensures exists k :: HandedBackAt(steps, k, id, n)
  {
    var front, last := steps[..|steps| - 1], steps[|steps| - 1];
    FrontAndLast(steps);
    RunSnoc(front, last);
    EmptyCoherent();
    RunCoherent(EMPTY, front);
    var before := Run(EMPTY, front);
    if id !in before.tasks {
      NoRowsBefore(before, last, id, n);
    } else {
      StepOutcomes(before, last, id);
      if OutcomeAt(before.attempts, id, n) == Some(WasAbandoned) {
        AbandonHasOrigin(front, id, n);
        var k :| HandedBackAt(front, k, id, n);
        HandedBackStays(front, last, k, id, n);
      } else {
        assert (front + [last])[..|front|] == front;
        assert HandedBackAt(front + [last], |front|, id, n);
      }
    }
  }

  /** In every reachable state each attempt from max_attempts on that did not end the task, the current one
      of a QUEUED task included, was handed back by an accepted hand-back of the run. */
  lemma LateAttemptsWereHandedBack(steps: seq<Step>, id: TaskId, n: nat)
    requires id in Run(EMPTY, steps).tasks
    requires var t := Run(EMPTY, steps).tasks[id]; t.maxAttempts <= n <= t.attempt && (n < t.attempt || t.state == Queued)
    ensures OutcomeAt(Run(EMPTY, steps).attempts, id, n) == Some(WasAbandoned)
    ensures exists k :: HandedBackAt(steps, k, id, n)
  {
    EmptyCoherent();
    RunCoherent(EMPTY, steps);
    assert Sound(Run(EMPTY, steps), id);
    AbandonHasOrigin(steps, id, n);
  }

  // ---- exactly when the budget is exceeded ------------------------------------------------------------------

  /** Step `j` of the run granted the task. */
  ghost predicate ClaimedAt(steps: seq<Step>, j: nat, id: TaskId) {
    && j < |steps| && steps[j].Claiming?
    && id in Run(EMPTY, steps[..j]).tasks && Run(EMPTY, steps[..j]).tasks[id].state == Queued
    && id in Run(EMPTY, steps[..j + 1]).tasks && Run(EMPTY, steps[..j + 1]).tasks[id].state == Running
  }

  lemma MovedByClaim(db: Db, s: Step, id: TaskId, t': Task)
    requires id in db.tasks && Moved(db, s, id, db.tasks[id], t') && db.tasks[id].state == Queued && t'.state == Running
    ensures s.Claiming?
  {}

  /** The step that raises the attempt number is a claim. */
  lemma RaisedByClaim(db: Db, s: Step, id: TaskId)
    requires Coherent(db) && id in db.tasks && id in Apply(db, s).tasks && Apply(db, s).tasks[id].attempt > db.tasks[id].attempt
    ensures s.Claiming? && db.tasks[id].state == Queued && Apply(db, s).tasks[id].state == Running
    ensures Apply(db, s).tasks[id].attempt == db.tasks[id].attempt + 1
  {
    StepClaims(db, s, id);
    StepMoves(db, s);
    MovedByClaim(db, s, id, Apply(db, s).tasks[id]);
  }

  /** Attempt `max` was handed back at some step of the run, and the task was granted at a later one. */
  ghost predicate GrantedAfterHandBack(steps: seq<Step>, id: TaskId, max: nat) {
    exists k, j :: k < j && HandedBackAt(steps, k, id, max) && ClaimedAt(steps, j, id)
  }

  lemma GrantedStays(front: seq<Step>, last: Step, id: TaskId, max: nat)
    requires GrantedAfterHandBack(front, id, max)
    ensures GrantedAfterHandBack(front + [last], id, max)
  {
    var k, j :| k < j && HandedBackAt(front, k, id, max) && ClaimedAt(front, j, id);
    HandedBackStays(front, last, k, id, max);
    assert (front + [last])[..j] == front[..j] && (front + [last])[..j + 1] == front[..j + 1];
    assert ClaimedAt(front + [last], j, id);
  }

  /** The step that takes the task past its budget. */
  lemma GrantedHere(front: seq<Step>, last: Step, id: TaskId, max: nat)
    requires Coherent(Run(EMPTY, front)) && id in Run(EMPTY, front).tasks && Run(EMPTY, front).tasks[id].maxAttempts == max
    requires Run(EMPTY, front).tasks[id].attempt <= max
    requires id in Apply(Run(EMPTY, front), last).tasks && Apply(Run(EMPTY, front), last).tasks[id].attempt > max
    ensures GrantedAfterHandBack(front + [last], id, max)
  {
    RaisedByClaim(Run(EMPTY, front), last, id);
    LateAttemptsWereHandedBack(front, id, max);
    var k :| HandedBackAt(front, k, id, max);
    HandedBackStays(front, last, k, id, max);
    RunSnoc(front, last);
    assert (front + [last])[..|front|] == front && (front + [last])[..|front| + 1] == front + [last];
    assert ClaimedAt(front + [last], |front|, id);
  }

  lemma {:induction false} OverBudgetHasGrant(steps: seq<Step>, id: TaskId)
    requires id in Run(EMPTY, steps).tasks && Run(EMPTY, steps).tasks[id].attempt > Run(EMPTY, steps).tasks[id].maxAttempts
    ensures GrantedAfterHandBack(steps, id, Run(EMPTY, steps).tasks[id].maxAttempts)
  {
    var front, last := steps[..|steps| - 1], steps[|steps| - 1];
    FrontAndLast(steps);
    RunSnoc(front, last);
    EmptyCoherent();
    RunCoherent(EMPTY, front);
    var before := Run(EMPTY, front);
    StepClaims(before, last, id);
    KeepsBudget(before, last, id);
    if before.tasks[id].attempt > before.tasks[id].maxAttempts {
      OverBudgetHasGrant(front, id);
      GrantedStays(front, last, id, before.tasks[id].maxAttempts);
    } else {
      GrantedHere(front, last, id, before.tasks[id].maxAttempts);
    }
  }

  lemma KeepsBudget(db: Db, s: Step, id: TaskId)
    requires Coherent(db) && id in Apply(db, s).tasks
    ensures id in db.tasks ==> Apply(db, s).tasks[id].maxAttempts == db.tasks[id].maxAttempts
  {
    StepCoherent(db, s);
  }

  /** What happened between two points of a run only adds to it. */
  lemma RunForward(steps: seq<Step>, m: nat, n: nat)
    requires m <= n <= |steps|
    ensures Coherent(Run(EMPTY, steps[..m])) && Forward(Run(EMPTY, steps[..m]), Run(EMPTY, steps[..n]))
  {
    EmptyCoherent();
    RunCoherent(EMPTY, steps[..m]);
    assert steps[..n] == steps[..m] + steps[m..n];
    RunSplit(EMPTY, steps[..m], steps[m..n]);
    RunCoherent(Run(EMPTY, steps[..m]), steps[m..n]);
  }

  lemma GrantRaises(steps: seq<Step>, j: nat, id: TaskId)
    requires ClaimedAt(steps, j, id)
    ensures Run(EMPTY, steps[..j + 1]).tasks[id].attempt == Run(EMPTY, steps[..j]).tasks[id].attempt + 1
  {
    EmptyCoherent();
    RunCoherent(EMPTY, steps[..j]);
    assert steps[..j + 1] == steps[..j] + [steps[j]];
    RunSnoc(steps[..j], steps[j]);
    StepClaims(Run(EMPTY, steps[..j]), steps[j], id);
  }

  lemma AttemptAtHandBack(steps: seq<Step>, k: nat, id: TaskId, n: nat)
    requires HandedBackAt(steps, k, id, n)
    ensures id in Run(EMPTY, steps[..k]).tasks && Run(EMPTY, steps[..k]).tasks[id].attempt == n
  {}

  lemma AttemptsOnlyGrow(a: Db, b: Db, id: TaskId)
    requires Forward(a, b) && id in a.tasks
    ensures id in b.tasks && a.tasks[id].attempt <= b.tasks[id].attempt
  {}

  lemma RunAttempts(steps: seq<Step>, m: nat, n: nat, id: TaskId)
    requires m <= n <= |steps| && id in Run(EMPTY, steps[..m]).tasks
    ensures id in Run(EMPTY, steps[..n]).tasks
    ensures Run(EMPTY, steps[..m]).tasks[id].attempt <= Run(EMPTY, steps[..n]).tasks[id].attempt
  {
    RunForward(steps, m, n);
    AttemptsOnlyGrow(Run(EMPTY, steps[..m]), Run(EMPTY, steps[..n]), id);
  }

  lemma WholeRun(steps: seq<Step>)
    ensures Run(EMPTY, steps[..|steps|]) == Run(EMPTY, steps)
  {
    assert steps[..|steps|] == steps;
  }

  lemma GrantIsOverBudget(steps: seq<Step>, id: TaskId, max: nat)
    requires GrantedAfterHandBack(steps, id, max)
    ensures id in Run(EMPTY, steps).tasks && Run(EMPTY, steps).tasks[id].attempt > max
  {
    var k, j :| k < j && HandedBackAt(steps, k, id, max) && ClaimedAt(steps, j, id);
    AttemptAtHandBack(steps, k, id, max);
    RunAttempts(steps, k, j, id);
    GrantRaises(steps, j, id);
    RunAttempts(steps, j + 1, |steps|, id);
    WholeRun(steps);
  }

  /** Over whole runs: a task is beyond max_attempts exactly when its attempt number max_attempts was
      handed back and the task was granted again afterwards. Retries and recoveries never take it there. */
  lemma OverBudgetIff(steps: seq<Step>, id: TaskId)
    requires id in Run(EMPTY, steps).tasks
    ensures var t := Run(EMPTY, steps).tasks[id]; t.attempt > t.maxAttempts <==> GrantedAfterHandBack(steps, id, t.maxAttempts)
  {
    var t := Run(EMPTY, steps).tasks[id];
    if t.attempt > t.maxAttempts {
      OverBudgetHasGrant(steps, id);
    } else if GrantedAfterHandBack(steps, id, t.maxAttempts) {
      GrantIsOverBudget(steps, id, t.maxAttempts);
    }
  }

  // ---- how much a run can spend ---------------------------------------------------------------------------

  /** How many of attempts 1..n were handed back. */
  function Abandons(attempts: map<AttemptKey, AttemptRow>, id: TaskId, n: nat): nat {
    if n == 0 then 0 else
      Abandons(attempts, id, n - 1) + if OutcomeAt(attempts, id, n) == Some(WasAbandoned) then 1 else 0
  }

  lemma {:induction false} AbandonsFrom(attempts: map<AttemptKey, AttemptRow>, id: TaskId, low: nat, n: nat)
    requires 1 <= low && forall m: nat | low <= m <= n :: OutcomeAt(attempts, id, m) == Some(WasAbandoned)
    ensures Abandons(attempts, id, n) + low >= n + 1
  {
    if n < low {
    } else {
      AbandonsFrom(attempts, id, low, n - 1);
    }
  }

  /** What is left of the budget: how often the task can still be claimed unless it is handed back. */
  ghost function Allowance(db: Db, id: TaskId): int
    requires id in db.tasks
  {
    db.tasks[id].maxAttempts + Abandons(db.attempts, id, db.tasks[id].attempt) - db.tasks[id].attempt
  }

  /** The accepted hand-backs of the run that were of attempt max_attempts or a later one. */
  ghost function LateHandBacks(steps: seq<Step>, id: TaskId): nat {
    if steps == [] then 0 else
      var front, last := steps[..|steps| - 1], steps[|steps| - 1];
      LateHandBacks(front, id) + if IsLate(Run(EMPTY, front), last, id) then 1 else 0
  }

  ghost predicate IsLate(db: Db, s: Step, id: TaskId) {
    HandedBack(db, s, id).Some? && s.attempt >= MaxAttemptsOf(db, id)
  }

  /** The claims a row has used or is about to use. */
  function Spent(t: Task): nat {
    t.attempt + if t.state == Queued then 1 else 0
  }

  lemma MovedSpends(db: Db, s: Step, id: TaskId, t': Task)
    requires id in db.tasks && Moved(db, s, id, db.tasks[id], t')
    ensures Spent(t') <= db.tasks[id].maxAttempts || Spent(t') <= Spent(db.tasks[id]) + if IsLate(db, s, id) then 1 else 0
  {
    if s.Finishing? { RetryWithinBudget(s.run, s.cancelled, s.attempt, MaxAttemptsOf(db, s.id), s.u, s.v); }
  }

  lemma StepSpends(db: Db, s: Step, id: TaskId)
    requires Coherent(db) && id in db.tasks && id in Apply(db, s).tasks
    ensures var t, t' := db.tasks[id], Apply(db, s).tasks[id];
      t'.maxAttempts == t.maxAttempts && (Spent(t') <= t.maxAttempts || Spent(t') <= Spent(t) + if IsLate(db, s, id) then 1 else 0)
  {
    KeepsBudget(db, s, id);
    StepMoves(db, s);
    if Apply(db, s).tasks[id] != db.tasks[id] { MovedSpends(db, s, id, Apply(db, s).tasks[id]); }
  }

  lemma LateSnoc(front: seq<Step>, last: Step, id: TaskId)
    ensures LateHandBacks(front + [last], id) == LateHandBacks(front, id) + if IsLate(Run(EMPTY, front), last, id) then 1 else 0
  {
    assert (front + [last])[..|front|] == front;
  }

  lemma {:induction false} SpentWithinBudget(steps: seq<Step>, id: TaskId)
    requires id in Run(EMPTY, steps).tasks
    ensures Spent(Run(EMPTY, steps).tasks[id]) <= Run(EMPTY, steps).tasks[id].maxAttempts + LateHandBacks(steps, id)
  {
    var front, last := steps[..|steps| - 1], steps[|steps| - 1];
    FrontAndLast(steps);
    RunSnoc(front, last);
    LateSnoc(front, last, id);
    EmptyCoherent();
    RunCoherent(EMPTY, front);
    var before := Run(EMPTY, front);
    if id in before.tasks {
      SpentWithinBudget(front, id);
      StepSpends(before, last, id);
    } else {
      FirstSpent(before, last, id);
    }
  }

  lemma FirstSpent(db: Db, s: Step, id: TaskId)
    requires Coherent(db) && id !in db.tasks && id in Apply(db, s).tasks
    ensures Spent(Apply(db, s).tasks[id]) <= Apply(db, s).tasks[id].maxAttempts
  {
    StepCoherent(db, s);
    StepClaims(db, s, id);
    assert Sound(Apply(db, s), id);
  }

  /** In every reachable state the attempts of a task stay within max_attempts plus its ABANDONED ones,
      and within max_attempts plus the accepted hand-backs of attempts at or past it; a QUEUED task has a
      claim left under both. */
  lemma AttemptBudget(steps: seq<Step>, id: TaskId)
    requires id in Run(EMPTY, steps).tasks
    ensures var db := Run(EMPTY, steps); var t := db.tasks[id];
      && Allowance(db, id) >= 0
      && (t.state == Queued ==> Allowance(db, id) > 0)
      && t.attempt <= t.maxAttempts + LateHandBacks(steps, id)
      && (t.state == Queued ==> t.attempt < t.maxAttempts + LateHandBacks(steps, id))
  {
    SpentWithinBudget(steps, id);
    EmptyCoherent();
    RunCoherent(EMPTY, steps);
    AllowanceLeft(Run(EMPTY, steps), id);
  }

  lemma AllowanceLeft(db: Db, id: TaskId)
    requires Coherent(db) && id in db.tasks
    ensures Allowance(db, id) >= 0 && (db.tasks[id].state == Queued ==> Allowance(db, id) > 0)
  {
    assert Sound(db, id);
    var t := db.tasks[id];
    if t.state == Queued {
      AbandonsFrom(db.attempts, id, t.maxAttempts, t.attempt);
    } else if t.attempt > 0 {
      AbandonsFrom(db.attempts, id, t.maxAttempts, t.attempt - 1);
    }
  }

  /** The attempt number counts the claims of the run: a run claims a task at most max_attempts times,
      and once more for every accepted hand-back at or past that number. */
  lemma ClaimsAreFinite(steps: seq<Step>, id: TaskId)
    requires id in Run(EMPTY, steps).tasks
    ensures ClaimsOf(steps, id) == Run(EMPTY, steps).tasks[id].attempt
    ensures ClaimsOf(steps, id) <= Run(EMPTY, steps).tasks[id].maxAttempts + LateHandBacks(steps, id)
  {
    AttemptBudget(steps, id);
    CountsClaims(steps, id);
  }

  lemma {:induction false} CountsClaims(steps: seq<Step>, id: TaskId)
    requires id in Run(EMPTY, steps).tasks
    ensures ClaimsOf(steps, id) == Run(EMPTY, steps).tasks[id].attempt
  {
    EmptyCoherent();
    var front, last := steps[..|steps| - 1], steps[|steps| - 1];
    var before := Run(EMPTY, front);
    RunCoherent(EMPTY, front);
    StepClaims(before, last, id);
    if id in before.tasks {
      CountsClaims(front, id);
    } else {
      UnknownIsUnclaimed(front, id);
    }
  }
}
