/** The documented recovery latency, and the runs that miss it by the length of a sweep. */
module SlowSweeps {
  import opened Wrappers
  import opened States
  import opened Tables
  import opened Claim
  import opened Reap
  import opened Ledger
  import opened Protocol
  import opened Timing
  import L = ReaperLoop
  import I = Incidents

  const IDLE: Watched := Watched(EMPTY, 0, 0)

  /** In time for `pace`, and yet a task is RUNNING more than the period past its lease. */
  ghost predicate Overrun(actions: seq<Action>, pace: Pace, id: TaskId) {
    Punctual(IDLE, actions, pace) && Late(Performed(IDLE, actions).db, pace, id)
  }

  predicate Late(db: Db, pace: Pace, id: TaskId) {
    && id in db.tasks && db.tasks[id].state == Running
    && (db.tasks[id].leaseExpiresAt.Some? ==> db.now > db.tasks[id].leaseExpiresAt.value + Seconds(pace.period))
  }

  // ---- one action at a time -----------------------------------------------------------------------------------------

  lemma Then(front: seq<Action>, a: Action, pace: Pace)
    ensures Performed(IDLE, front + [a]) == Perform(Performed(IDLE, front), a)
    ensures Punctual(IDLE, front + [a], pace) <==> Punctual(IDLE, front, pace) && InTime(Performed(IDLE, front), a, pace)
  {
    assert (front + [a])[..|front|] == front;
  }

  lemma NothingDue(db: Db, t: Task, phase: Phase, size: nat, batches: nat)
    requires I.At(db, db.now, t) && !Overdue(t, phase, db.now)
    ensures DueRows(db, phase, {}) == {} && L.Drained(db, phase, {}, size, batches) == db
  {
    L.BacklogFacts(db, phase, {});
    assert L.Taken(db, phase, {}, size, batches) == [];
    assert Ids([]) == [];
  }

  /** A sweep that finds nothing overdue changes nothing. */
  lemma QuietSweep(db: Db, t: Task, size: nat, batches: nat, took: nat)
    requires I.At(db, db.now, t) && !Overdue(t, LeasePhase, db.now) && !Overdue(t, HungPhase, db.now)
    ensures DueRows(db, LeasePhase, {}) == {} && AfterSweep(db, size, batches, took) == Watched(db, db.now, took)
  {
    var left := L.PollsLeft(|L.Backlog(db, LeasePhase, {})|, size, batches, batches + batches);
    NothingDue(db, t, LeasePhase, size, Min(batches, batches + batches));
    NothingDue(db, t, HungPhase, size, Min(batches, left));
  }

  /** The clock, the task, and the last sweep. */
  ghost predicate Stands(v: Watched, now: Time, t: Task, swept: Time, took: nat) {
    I.At(v.db, now, t) && v.swept == swept && v.took == took
  }

  lemma Ticks(v: Watched, t: Task, d: nat, pace: Pace)
    requires Stands(v, v.db.now, t, v.swept, v.took) && v.db.now + d <= v.swept + Seconds(v.took + pace.period)
    ensures InTime(v, Act(Tick(d)), pace) && Stands(Perform(v, Act(Tick(d))), v.db.now + d, t, v.swept, v.took)
  {}

  lemma SweepsQuietly(v: Watched, t: Task, size: nat, batches: nat, pace: Pace)
    requires I.At(v.db, v.db.now, t) && !Overdue(t, LeasePhase, v.db.now) && !Overdue(t, HungPhase, v.db.now)
    ensures InTime(v, Sweep(size, batches, pace.longest), pace)
    ensures Stands(Perform(v, Sweep(size, batches, pace.longest)), v.db.now, t, v.db.now, pace.longest)
  {
    QuietSweep(v.db, t, size, batches, pace.longest);
  }

  // ---- a run that is late -------------------------------------------------------------------------------------------

  /** A lease short enough to run out before the next sweep is due and before the task is hung. */
  predicate Short(ttl: nat, pace: Pace) {
    ttl <= pace.period && ttl <= 60
  }

  function Leased(ttl: nat): Task {
    GrantedRow(I.Submitted(3), I.W, ttl, 0)
  }

  /** A tenant and its task. */
  function Arriving(): seq<Action> {
    [Act(AddTenant(0, I.LIMITS))] + [Act(Submission(I.JobOf(0, 3), 0, I.QUIET))]
  }

  /** A worker claims it. */
  function Claimed(c: I.Call, ttl: nat): seq<Action> {
    Arriving() + [Act(I.Take(c, ttl))]
  }

  /** As the lease is just running out, a sweep starts. */
  function SweptJustBefore(c: I.Call, ttl: nat, size: nat, batches: nat, pace: Pace): seq<Action> {
    Claimed(c, ttl) + [Act(Tick(Seconds(ttl)))] + [Sweep(size, batches, pace.longest)]
  }

  /** The sweep lasts as long as sweeps do, and the period follows. */
  function Slow(c: I.Call, ttl: nat, size: nat, batches: nat, pace: Pace): seq<Action> {
    SweptJustBefore(c, ttl, size, batches, pace) + [Act(Tick(Seconds(pace.longest + pace.period)))]
  }

  lemma Arrived(pace: Pace)
    ensures Punctual(IDLE, Arriving(), pace) && Stands(Performed(IDLE, Arriving()), 0, I.Submitted(3), 0, 0)
    ensures Coherent(Performed(IDLE, Arriving()).db)
  {
    var first, second := AddTenant(0, I.LIMITS), Submission(I.JobOf(0, 3), 0, I.QUIET);
    Then([], Act(first), pace);
    assert [] + [Act(first)] == [Act(first)];
    Then([Act(first)], Act(second), pace);
    I.Arrival(3);
    EmptyCoherent();
    StepCoherent(EMPTY, first);
    StepCoherent(Apply(EMPTY, first), second);
  }

  lemma ClaimsInTime(v: Watched, c: I.Call, ttl: nat, pace: Pace)
    requires Stands(v, 0, I.Submitted(3), 0, 0) && Coherent(v.db) && I.Asks(c)
    ensures InTime(v, Act(I.Take(c, ttl)), pace) && Stands(Perform(v, Act(I.Take(c, ttl))), 0, Leased(ttl), 0, 0)
  {
    I.ClaimStep(v.db, I.Submitted(3), c, ttl);
  }

  lemma ClaimedRun(c: I.Call, ttl: nat, pace: Pace)
    requires I.Asks(c)
    ensures Punctual(IDLE, Claimed(c, ttl), pace) && Stands(Performed(IDLE, Claimed(c, ttl)), 0, Leased(ttl), 0, 0)
  {
    Arrived(pace);
    Then(Arriving(), Act(I.Take(c, ttl)), pace);
    ClaimsInTime(Performed(IDLE, Arriving()), c, ttl, pace);
  }

  lemma SweptRun(c: I.Call, ttl: nat, size: nat, batches: nat, pace: Pace)
    requires I.Asks(c) && Short(ttl, pace)
    ensures var run := SweptJustBefore(c, ttl, size, batches, pace);
      Punctual(IDLE, run, pace) && Stands(Performed(IDLE, run), Seconds(ttl), Leased(ttl), Seconds(ttl), pace.longest)
  {
    var front := Claimed(c, ttl);
    ClaimedRun(c, ttl, pace);
    Then(front, Act(Tick(Seconds(ttl))), pace);
    Ticks(Performed(IDLE, front), Leased(ttl), Seconds(ttl), pace);
    var waits := front + [Act(Tick(Seconds(ttl)))];
    Then(waits, Sweep(size, batches, pace.longest), pace);
    SweepsQuietly(Performed(IDLE, waits), Leased(ttl), size, batches, pace);
  }

  /** The bound of `RecoveryBound` is reached: a period and a sweep past its lease the task is RUNNING. */
  lemma SlowRun(c: I.Call, ttl: nat, size: nat, batches: nat, pace: Pace)
    requires I.Asks(c) && Short(ttl, pace)
    ensures var run := Slow(c, ttl, size, batches, pace); var d := Seconds(pace.longest + pace.period);
      Punctual(IDLE, run, pace) && Stands(Performed(IDLE, run), Seconds(ttl) + d, Leased(ttl), Seconds(ttl), pace.longest)
  {
    var front, d := SweptJustBefore(c, ttl, size, batches, pace), Seconds(pace.longest + pace.period);
    SweptRun(c, ttl, size, batches, pace);
    Then(front, Act(Tick(d)), pace);
    Ticks(Performed(IDLE, front), Leased(ttl), d, pace);
  }

  lemma OverrunExample(c: I.Call, ttl: nat, size: nat, batches: nat, pace: Pace)
    requires I.Asks(c) && Short(ttl, pace) && pace.longest >= 1
    ensures Overrun(Slow(c, ttl, size, batches, pace), pace, 0)
  {
    SlowRun(c, ttl, size, batches, pace);
  }

  lemma NoOverrun(actions: seq<Action>, pace: Pace, id: TaskId)
    requires pace.longest == 0
    ensures !Overrun(actions, pace, id)
  {
    if Overrun(actions, pace, id) { RecoveryBound(actions, pace, id); }
  }

  /** The documented recovery bound, one period past the lease, holds of every run exactly when sweeps
      take no time. */
  lemma DocumentedBoundIff(pace: Pace)
    ensures (forall actions: seq<Action>, id: TaskId :: !Overrun(actions, pace, id)) <==> pace.longest == 0
  {
    if pace.longest == 0 {
      forall actions: seq<Action>, id: TaskId { NoOverrun(actions, pace, id); }
    } else {
      OverrunExample(I.Call(1, [], 1), Min(pace.period, 1), 1, 1, pace);
    }
  }
}
