/** src/acp/config.py and the timing it promises: how late a lost worker is noticed, and why a live one
    never is. */
module Timing {
  import opened Wrappers
  import opened States
  import opened Tables
  import opened Text
  import opened Agents
  import opened Completion
  import opened Claim
  import opened Rounds
  import opened Grants
  import opened Reap
  import opened ReaperLoop
  import opened Ledger
  import opened Protocol
  import opened Moves
  import opened Fencing

  datatype Settings = Settings(
    leaseTtl: nat, leaseRenewInterval: nat, heartbeatInterval: nat, workerDeadAfter: nat, reaperPeriod: nat,
    workerCapabilities: string)

  /** `validate_timing`: raises unless this holds. */
  predicate ValidTiming(s: Settings) {
    s.leaseTtl > 3 * s.leaseRenewInterval && s.workerDeadAfter > 2 * s.heartbeatInterval
  }

  /** `Settings.capabilities()`. */
  function Capabilities(s: Settings): seq<string> {
    Sorted(Normalised(Split(s.workerCapabilities)))
  }

  /** A worker configured from its settings advertises clean, comma-free names, so on the keyed path it
      is matched exactly as `worker_satisfies` says. */
  lemma ConfiguredCapabilities(s: Settings, t: Task)
    ensures WorkerList(Capabilities(s)) && AllCommaFree(Normalised(Capabilities(s)))
    ensures Normalised(Capabilities(s)) == Normalised(Split(s.workerCapabilities))
    ensures KeyStored(t) && AllCommaFree(Normalised(t.requiredCapabilities)) && UsesKeys(Capabilities(s)) ==>
              (Eligible(t, Capabilities(s)) <==> WorkerSatisfies(t.requiredCapabilities, Capabilities(s)))
  {
    var pieces := Split(s.workerCapabilities);
    PiecesCommaFree(s.workerCapabilities);
    NormalisedAreClean(pieces);
    CleanAreKept(Capabilities(s));
    forall n | n in Normalised(pieces) ensures CommaFree(n) {
      var c :| c in pieces && Strip(c) != "" && n == Normalise(c);
      NormaliseKeepsCommaFree(c);
    }
    if KeyStored(t) && AllCommaFree(Normalised(t.requiredCapabilities)) && UsesKeys(Capabilities(s)) {
      KeyedEligibleIffSatisfied(t, Capabilities(s));
    }
  }

  // ---- recovery latency ---------------------------------------------------------------------------------------

  // A run with sweeps in it: `swept` is when the last one started, `took` the seconds it lasted.
  datatype Watched = Watched(db: Db, swept: Time, took: nat)
  datatype Action = Act(step: Step) | Sweep(size: nat, batches: nat, took: nat)

  // `run_forever` waits `period` seconds after a sweep has ended; no sweep takes longer than `longest`.
  datatype Pace = Pace(period: nat, longest: nat)

  /** A sweep nothing interferes with: no foreign locks, never told to stop. */
  function AfterSweep(db: Db, size: nat, batches: nat, took: nat): Watched {
    Watched(Swept(db, {}, size, batches, batches + batches), db.now, took)
  }

  function Perform(w: Watched, a: Action): Watched {
    match a
    case Act(s) => Watched(Apply(w.db, s), w.swept, w.took)
    case Sweep(size, batches, took) => AfterSweep(w.db, size, batches, took)
  }

  function Performed(w: Watched, actions: seq<Action>): Watched {
    if actions == [] then w else Perform(Performed(w, actions[..|actions| - 1]), actions[|actions| - 1])
  }

  /** The next sweep starts within `period` of the last one's end, and each drains what it finds expired. */
  predicate InTime(w: Watched, a: Action, pace: Pace) {
    match a
    case Act(s) => s.Tick? ==> w.db.now + s.d <= w.swept + Seconds(w.took + pace.period)
    case Sweep(size, batches, took) => |DueRows(w.db, LeasePhase, {})| <= size * batches && took <= pace.longest
  }

  predicate Punctual(w: Watched, actions: seq<Action>, pace: Pace) {
    actions != [] ==>
      Punctual(w, actions[..|actions| - 1], pace) && InTime(Performed(w, actions[..|actions| - 1]), actions[|actions| - 1], pace)
  }

  /** Every lease still held runs to `since` at least. */
  ghost predicate LeasesReach(db: Db, since: Time) {
    forall id <- db.tasks :: db.tasks[id].state == Running ==>
      db.tasks[id].leaseExpiresAt.Some? && db.tasks[id].leaseExpiresAt.value >= since
  }

  /** No RUNNING task's lease had run out when the last sweep started. */
  ghost predicate Covered(w: Watched, pace: Pace) {
    w.swept <= w.db.now <= w.swept + Seconds(w.took + pace.period) && w.took <= pace.longest && LeasesReach(w.db, w.swept)
  }

  /** How a row that is RUNNING after a step got its lease: granted now, renewed now, or kept. */
  predicate LeaseStep(db: Db, s: Step, id: TaskId, t: Task, t': Task) {
    || (s.Claiming? && t.state == Queued && t'.attempt == t.attempt + 1 && t'.leaseExpiresAt == Some(db.now + Seconds(s.ttl)))
    || (s.Renewal? && s.id == id && Renewable(db, id, s.attempt, s.worker)
        && t' == t.(leaseExpiresAt := Some(db.now + Seconds(s.ttl))))
    || (!(s.Renewal? && s.id == id && Renewable(db, id, s.attempt, s.worker)) && t.state == Running
        && t'.attempt == t.attempt && t'.leaseWorker == t.leaseWorker && t'.leaseExpiresAt == t.leaseExpiresAt)
  }

  lemma MovedLease(db: Db, s: Step, id: TaskId, t': Task)
    requires id in db.tasks && Moved(db, s, id, db.tasks[id], t') && t'.state == Running
    ensures LeaseStep(db, s, id, db.tasks[id], t')
  {}

  lemma KeptLease(db: Db, s: Step, id: TaskId)
    requires id in db.tasks && db.tasks[id].state == Running && id in Apply(db, s).tasks && Apply(db, s).tasks[id] == db.tasks[id]
    ensures LeaseStep(db, s, id, db.tasks[id], db.tasks[id])
  {}

  lemma StepLease(db: Db, s: Step, id: TaskId)
    requires Coherent(db) && id in Apply(db, s).tasks && Apply(db, s).tasks[id].state == Running
    ensures id in db.tasks && LeaseStep(db, s, id, db.tasks[id], Apply(db, s).tasks[id])
  {
    StepMoves(db, s);
    StepsAreLegal(db, s, id);
    if Apply(db, s).tasks[id] == db.tasks[id] {
      KeptLease(db, s, id);
    } else {
      MovedLease(db, s, id, Apply(db, s).tasks[id]);
    }
  }

  lemma StepClock(db: Db, s: Step)
    requires Coherent(db)
    ensures Apply(db, s).now == if s.Tick? then db.now + s.d else db.now
  {
    StepMoves(db, s);
  }

  lemma StepCovered(w: Watched, s: Step, pace: Pace)
    requires Coherent(w.db) && Covered(w, pace) && InTime(w, Act(s), pace)
    ensures Covered(Perform(w, Act(s)), pace)
  {
    var after := Apply(w.db, s);
    StepClock(w.db, s);
    forall id | id in after.tasks && after.tasks[id].state == Running
      ensures after.tasks[id].leaseExpiresAt.Some? && after.tasks[id].leaseExpiresAt.value >= w.swept
    {
      StepLease(w.db, s, id);
    }
  }

  /** What a phase of a sweep leaves RUNNING it left alone. */
  lemma DrainedRows(db: Db, phase: Phase, size: nat, batches: nat)
    ensures var after := Drained(db, phase, {}, size, batches);
      && after.now == db.now && after.tasks.Keys == db.tasks.Keys
      && forall id <- db.tasks :: after.tasks[id].state == Running ==> after.tasks[id] == db.tasks[id]
  {
    var taken := Taken(db, phase, {}, size, batches);
    SweepTouchesOnlyTaken(db, phase, {}, size, batches);
    TakenIsHead(db, phase, {}, taken);
    DistinctIds(db, phase, {}, taken);
    ReapAllEffect(db, phase, Ids(taken));
  }

  lemma NoneOverdue(db: Db, id: TaskId)
    requires DueRows(db, LeasePhase, {}) == {} && id in db.tasks
    ensures !Overdue(db.tasks[id], LeasePhase, db.now)
  {
    if Overdue(db.tasks[id], LeasePhase, db.now) {
      DueIsListed(db, id);
      assert false;
    }
  }

  lemma DueIsListed(db: Db, id: TaskId)
    requires id in db.tasks && Overdue(db.tasks[id], LeasePhase, db.now)
    ensures Due(Since(db.tasks[id], LeasePhase), id) in DueRows(db, LeasePhase, {})
  {}

  /** What a sweep leaves RUNNING it left alone, clock included. */
  lemma SweptRows(db: Db, size: nat, batches: nat, polls: nat)
    ensures var after := Swept(db, {}, size, batches, polls);
      && after.now == db.now && after.tasks.Keys == db.tasks.Keys
      && forall id <- db.tasks :: after.tasks[id].state == Running ==>
           after.tasks[id] == db.tasks[id] && Drained(db, LeasePhase, {}, size, Min(batches, polls)).tasks.Keys == db.tasks.Keys
           && Drained(db, LeasePhase, {}, size, Min(batches, polls)).tasks[id] == db.tasks[id]
  {
    var middle := Drained(db, LeasePhase, {}, size, Min(batches, polls));
    var left := PollsLeft(|Backlog(db, LeasePhase, {})|, size, batches, polls);
    DrainedRows(db, LeasePhase, size, Min(batches, polls));
    DrainedRows(middle, HungPhase, size, Min(batches, left));
  }

  lemma SweptRow(db: Db, size: nat, batches: nat, polls: nat, id: TaskId)
    requires id in db.tasks && id in Swept(db, {}, size, batches, polls).tasks
    requires Swept(db, {}, size, batches, polls).tasks[id].state == Running
    ensures Swept(db, {}, size, batches, polls).tasks[id] == db.tasks[id]
  {
    SweptRows(db, size, batches, polls);
  }

  /** After a draining sweep no lease still held had run out. */
  lemma SweptLease(db: Db, size: nat, batches: nat, polls: nat, id: TaskId)
    requires |DueRows(db, LeasePhase, {})| <= size * batches && batches <= polls
    requires id in db.tasks && id in Swept(db, {}, size, batches, polls).tasks
    requires Swept(db, {}, size, batches, polls).tasks[id].state == Running
    ensures !LeaseExpired(db.tasks[id], db.now)
  {
    SweptRows(db, size, batches, polls);
    SweepCompleteness(db, LeasePhase, {}, size, batches);
    DrainedRows(db, LeasePhase, size, batches);
    NoneOverdue(Drained(db, LeasePhase, {}, size, batches), id);
  }

  /** After a draining sweep every lease still held runs past the sweep's start. */
  lemma SweepReaches(db: Db, size: nat, batches: nat, polls: nat)
    requires Coherent(db) && |DueRows(db, LeasePhase, {})| <= size * batches && batches <= polls
    ensures LeasesReach(Swept(db, {}, size, batches, polls), db.now)
  {
    var after := Swept(db, {}, size, batches, polls);
    SweptRows(db, size, batches, polls);
    forall id | id in after.tasks && after.tasks[id].state == Running
      ensures after.tasks[id].leaseExpiresAt.Some? && after.tasks[id].leaseExpiresAt.value >= db.now
    {
      SweptLease(db, size, batches, polls, id);
      assert Sound(db, id);
    }
  }

  lemma SweepClock(db: Db, size: nat, batches: nat, took: nat)
    ensures AfterSweep(db, size, batches, took).db.now == db.now && AfterSweep(db, size, batches, took).swept == db.now
    ensures AfterSweep(db, size, batches, took).took == took
  {
    SweptRows(db, size, batches, batches + batches);
  }

  lemma AfterSweepReaches(db: Db, size: nat, batches: nat, took: nat)
    requires Coherent(db) && |DueRows(db, LeasePhase, {})| <= size * batches
    ensures LeasesReach(AfterSweep(db, size, batches, took).db, db.now)
  {
    SweepReaches(db, size, batches, batches + batches);
  }

  lemma JustSwept(v: Watched, pace: Pace)
    requires v.db.now == v.swept && v.took <= pace.longest && LeasesReach(v.db, v.swept)
    ensures Covered(v, pace)
  {}

  lemma SweepCovers(db: Db, size: nat, batches: nat, took: nat, pace: Pace)
    requires Coherent(db) && |DueRows(db, LeasePhase, {})| <= size * batches && took <= pace.longest
    ensures Covered(AfterSweep(db, size, batches, took), pace)
  {
    SweepClock(db, size, batches, took);
    AfterSweepReaches(db, size, batches, took);
    JustSwept(AfterSweep(db, size, batches, took), pace);
  }

  lemma SweepCoherent(db: Db, size: nat, batches: nat, polls: nat)
    requires Coherent(db)
    ensures var after := Swept(db, {}, size, batches, polls); Coherent(after) && Forward(db, after)
  {
    var first := Ids(Taken(db, LeasePhase, {}, size, Min(batches, polls)));
    var middle := ReapAll(db, LeasePhase, first);
    ReapAllIsRun(db, LeasePhase, first);
    RunCoherent(db, Recoveries(LeasePhase, first));
    var left := PollsLeft(|Backlog(db, LeasePhase, {})|, size, batches, polls);
    var second := Ids(Taken(middle, HungPhase, {}, size, Min(batches, left)));
    ReapAllIsRun(middle, HungPhase, second);
    RunCoherent(middle, Recoveries(HungPhase, second));
    ForwardTransitive(db, middle, ReapAll(middle, HungPhase, second));
  }

  lemma ActCovered(w: Watched, s: Step, pace: Pace)
    requires Coherent(w.db) && InTime(w, Act(s), pace) && Covered(w, pace)
    ensures Coherent(Perform(w, Act(s)).db) && Forward(w.db, Perform(w, Act(s)).db) && Covered(Perform(w, Act(s)), pace)
  {
    StepCoherent(w.db, s);
    StepCovered(w, s, pace);
  }

  lemma SweepKept(db: Db, size: nat, batches: nat, took: nat)
    requires Coherent(db)
    ensures var v := AfterSweep(db, size, batches, took); Coherent(v.db) && Forward(db, v.db)
  {
    SweepCoherent(db, size, batches, batches + batches);
  }

  lemma ActionCovered(w: Watched, a: Action, pace: Pace)
    requires Coherent(w.db) && InTime(w, a, pace) && Covered(w, pace)
    ensures Coherent(Perform(w, a).db) && Forward(w.db, Perform(w, a).db) && Covered(Perform(w, a), pace)
  {
    if a.Act? {
      ActCovered(w, a.step, pace);
    } else {
      SweepKept(w.db, a.size, a.batches, a.took);
      SweepCovers(w.db, a.size, a.batches, a.took, pace);
    }
  }

  lemma {:induction false} RunCovered(w: Watched, actions: seq<Action>, pace: Pace)
    requires Coherent(w.db) && Covered(w, pace) && Punctual(w, actions, pace)
    ensures Coherent(Performed(w, actions).db) && Covered(Performed(w, actions), pace)
    ensures Forward(w.db, Performed(w, actions).db)
  {
    if actions == [] {
    } else {
      var front, last := actions[..|actions| - 1], actions[|actions| - 1];
      RunCovered(w, front, pace);
      ActionCovered(Performed(w, front), last, pace);
      ForwardTransitive(w.db, Performed(w, front).db, Performed(w, actions).db);
    }
  }

  /** The recovery bound. If sweeps drain their backlog, then at every moment no RUNNING task is more than
      reaper_period_s and the length of a sweep past its lease: the loop waits the period after a sweep
      has ended, so sweeps start that far apart, not one period apart. */
  lemma RecoveryBound(actions: seq<Action>, pace: Pace, id: TaskId)
    requires Punctual(Watched(EMPTY, 0, 0), actions, pace)
    requires id in Performed(Watched(EMPTY, 0, 0), actions).db.tasks
    requires Performed(Watched(EMPTY, 0, 0), actions).db.tasks[id].state == Running
    ensures var db := Performed(Watched(EMPTY, 0, 0), actions).db;
            db.tasks[id].leaseExpiresAt.Some? && db.now <= db.tasks[id].leaseExpiresAt.value + Seconds(pace.longest + pace.period)
  {
    EmptyCoherent();
    RunCovered(Watched(EMPTY, 0, 0), actions, pace);
  }

  // ---- a retry waits -----------------------------------------------------------------------------------------

  lemma MovedWhileWaiting(db: Db, s: Step, id: TaskId, t': Task)
    requires id in db.tasks && Moved(db, s, id, db.tasks[id], t')
    requires db.tasks[id].state == Queued && db.now < db.tasks[id].availableAt
    ensures t'.state == Cancelled && t'.attempt == db.tasks[id].attempt
  {}

  /** Waiting for `at`, or cancelled while it waited. */
  predicate Waiting(db: Db, id: TaskId, attempt: nat, at: Time) {
    && id in db.tasks && db.tasks[id].attempt == attempt
    && ((db.tasks[id].state == Queued && db.tasks[id].availableAt == at) || db.tasks[id].state == Cancelled)
  }

  lemma StepWaits(db: Db, s: Step, id: TaskId, attempt: nat, at: Time)
    requires Coherent(db) && Waiting(db, id, attempt, at) && db.now < at
    ensures Waiting(Apply(db, s), id, attempt, at)
  {
    if db.tasks[id].state == Cancelled {
      StepKeepsTerminal(db, s, id);
    } else {
      StepMoves(db, s);
      if Apply(db, s).tasks[id] != db.tasks[id] {
        MovedWhileWaiting(db, s, id, Apply(db, s).tasks[id]);
      }
    }
  }

  /** Before its time a queued task is not claimed, whatever workers, reapers and cancellers do. */
  lemma {:induction false} WaitsItsTime(db: Db, steps: seq<Step>, id: TaskId, attempt: nat, at: Time)
    requires Coherent(db) && Waiting(db, id, attempt, at) && Run(db, steps).now < at
    ensures Waiting(Run(db, steps), id, attempt, at)
  {
    if steps == [] {
    } else {
      var front, last := steps[..|steps| - 1], steps[|steps| - 1];
      RunCoherent(db, front);
      StepCoherent(Run(db, front), last);
      WaitsItsTime(db, front, id, attempt, at);
      StepWaits(Run(db, front), last, id, attempt, at);
    }
  }

  /** The row a reported retry leaves. */
  lemma RetryWritesDelay(db: Db, s: Step)
    requires s.Finishing? && Holds(db, s.id, s.attempt, s.worker) && EndingOf(db, s).Retry?
    ensures Apply(db, s).now == db.now && Waiting(Apply(db, s), s.id, s.attempt, db.now + EndingOf(db, s).backoff)
  {
    CompleteMoves(db, s.id, s.attempt, s.worker, EndingOf(db, s));
  }

  /** The backoff is honoured: after an accepted retry the task stays QUEUED, or is cancelled, until its
      delay has passed; no run lets anyone claim it earlier. */
  lemma BackoffIsHonoured(db: Db, s: Step, after: Db, at: Time, steps: seq<Step>)
    requires Coherent(db) && s.Finishing? && Holds(db, s.id, s.attempt, s.worker) && EndingOf(db, s).Retry?
    requires after == Apply(db, s) && at == db.now + EndingOf(db, s).backoff && Run(after, steps).now < at
    ensures Waiting(Run(after, steps), s.id, s.attempt, at)
  {
    RetryWritesDelay(db, s);
    StepCoherent(db, s);
    WaitsItsTime(after, steps, s.id, s.attempt, at);
  }

  /** The hung-task clock is that of the task's first start, not of its attempt: a task claimed again is
      overdue at the very moment of the grant exactly when its cap has passed since that first start. */
  lemma HungAtOnceIff(t: Task, worker: WorkerId, ttl: nat, now: Time)
    ensures Overdue(GrantedRow(t, worker, ttl, now), HungPhase, now) <==>
            t.firstStartedAt.Some? && now - t.firstStartedAt.value > Seconds(t.maxExecutionTime)
  {}

  /** So in every reachable state a claim may hand out a task that the very next hung-task recovery takes
      away again, exactly when the task's cap has passed since its first start. */
  lemma GrantedAlreadyHungIff(steps: seq<Step>, s: Step, id: TaskId)
    requires s.Claiming? && id in ClaimWithin(Run(EMPTY, steps), s.caps, s.limit, s.locked, s.rounds)
    ensures var db := Run(EMPTY, steps); var after := Apply(db, s);
      && id in db.tasks && id in after.tasks && after.tasks[id].state == Running
      && (ReapOne(after, HungPhase, id) != after <==>
            db.tasks[id].firstStartedAt.Some? && db.now - db.tasks[id].firstStartedAt.value > Seconds(db.tasks[id].maxExecutionTime))
  {
    var db := Run(EMPTY, steps);
    EmptyCoherent();
    RunCoherent(EMPTY, steps);
    ClaimedRow(db, s, id);
    HungAtOnceIff(db.tasks[id], s.worker, s.ttl, db.now);
    ReapChanges(Apply(db, s), HungPhase, id);
  }

  lemma ClaimedRow(db: Db, s: Step, id: TaskId)
    requires Coherent(db) && s.Claiming? && id in ClaimWithin(db, s.caps, s.limit, s.locked, s.rounds)
    ensures id in db.tasks && id in Apply(db, s).tasks && Apply(db, s).now == db.now
    ensures Apply(db, s).tasks[id] == GrantedRow(db.tasks[id], s.worker, s.ttl, db.now)
  {
    ClaimIsGrant(db, s);
    GrantAllEffect(db, ClaimWithin(db, s.caps, s.limit, s.locked, s.rounds), s.worker, s.ttl);
  }

  lemma ClaimIsGrant(db: Db, s: Step)
    requires Coherent(db) && s.Claiming?
    ensures var ids := ClaimWithin(db, s.caps, s.limit, s.locked, s.rounds);
      Distinct(ids) && (forall id <- ids :: id in db.tasks) && Apply(db, s) == GrantAll(db, ids, s.worker, s.ttl)
  {
    ClaimCoherent(db, s.worker, s.limit, s.ttl, s.caps, s.locked, s.rounds);
    ClaimApplied(db, s);
  }

  lemma ClaimApplied(db: Db, s: Step)
    requires s.Claiming?
    ensures Apply(db, s) == ClaimTo(db, s.worker, s.limit, s.ttl, s.caps, s.locked, s.rounds)
  {}

  lemma ReapChanges(db: Db, phase: Phase, id: TaskId)
    requires id in db.tasks
    ensures ReapOne(db, phase, id) != db <==> Overdue(db.tasks[id], phase, db.now)
  {
    ReapOneShape(db, phase, id);
    if Overdue(db.tasks[id], phase, db.now) {
      assert |Recovered(db, phase, id).events| > |db.events|;
    }
  }

  // ---- a silent worker ------------------------------------------------------------------------------------------

  predicate ExpiresAt(t: Task, at: Time) {
    t.leaseExpiresAt.Some? && t.leaseExpiresAt.value == at
  }

  predicate IsRenewal(s: Step, id: TaskId, attempt: nat, worker: WorkerId) {
    s.Renewal? && s.id == id && s.attempt == attempt && s.worker == worker
  }

  /** The holder of a tenure never renews it during these actions. */
  predicate Silent(actions: seq<Action>, id: TaskId, attempt: nat, worker: WorkerId) {
    forall a <- actions :: a.Act? ==> !IsRenewal(a.step, id, attempt, worker)
  }

  /** A tenure held after a step was held before it, and unless its holder renews, under the same lease. */
  lemma StepKeepsLease(db: Db, s: Step, id: TaskId, attempt: nat, worker: WorkerId)
    requires Coherent(db) && Holds(Apply(db, s), id, attempt, worker)
    requires id in db.tasks && attempt <= db.tasks[id].attempt
    ensures Holds(db, id, attempt, worker)
    ensures Apply(db, s).tasks[id].leaseExpiresAt ==
            if IsRenewal(s, id, attempt, worker) && Renewable(db, id, attempt, worker)
            then Some(db.now + Seconds(s.ttl)) else db.tasks[id].leaseExpiresAt
  {
    StepLease(db, s, id);
  }

  lemma ActKeepsLease(w: Watched, s: Step, id: TaskId, attempt: nat, worker: WorkerId)
    requires Coherent(w.db) && id in w.db.tasks && attempt <= w.db.tasks[id].attempt
    requires Holds(Perform(w, Act(s)).db, id, attempt, worker) && !IsRenewal(s, id, attempt, worker)
    ensures Holds(w.db, id, attempt, worker)
    ensures Perform(w, Act(s)).db.tasks[id].leaseExpiresAt == w.db.tasks[id].leaseExpiresAt
  {
    StepKeepsLease(w.db, s, id, attempt, worker);
  }

  lemma SweepKeepsLease(db: Db, size: nat, batches: nat, took: nat, id: TaskId, attempt: nat, worker: WorkerId)
    requires id in db.tasks && Holds(AfterSweep(db, size, batches, took).db, id, attempt, worker)
    ensures Holds(db, id, attempt, worker)
    ensures AfterSweep(db, size, batches, took).db.tasks[id].leaseExpiresAt == db.tasks[id].leaseExpiresAt
  {
    SweptRow(db, size, batches, batches + batches, id);
  }

  lemma ActionKeepsLease(w: Watched, a: Action, id: TaskId, attempt: nat, worker: WorkerId)
    requires Coherent(w.db) && id in w.db.tasks && attempt <= w.db.tasks[id].attempt
    requires Holds(Perform(w, a).db, id, attempt, worker)
    requires a.Act? ==> !IsRenewal(a.step, id, attempt, worker)
    ensures Holds(w.db, id, attempt, worker)
    ensures Perform(w, a).db.tasks[id].leaseExpiresAt == w.db.tasks[id].leaseExpiresAt
  {
    if a.Act? {
      ActKeepsLease(w, a.step, id, attempt, worker);
    } else {
      SweepKeepsLease(w.db, a.size, a.batches, a.took, id, attempt, worker);
    }
  }

  lemma SilentParts(actions: seq<Action>, id: TaskId, attempt: nat, worker: WorkerId)
    requires actions != [] && Silent(actions, id, attempt, worker)
    ensures Silent(actions[..|actions| - 1], id, attempt, worker)
    ensures actions[|actions| - 1].Act? ==> !IsRenewal(actions[|actions| - 1].step, id, attempt, worker)
  {}

  lemma StillThere(w: Watched, actions: seq<Action>, pace: Pace, id: TaskId, attempt: nat, worker: WorkerId)
    requires Coherent(w.db) && Covered(w, pace) && Punctual(w, actions, pace) && Holds(w.db, id, attempt, worker)
    ensures var v := Performed(w, actions); Coherent(v.db) && id in v.db.tasks && attempt <= v.db.tasks[id].attempt
  {
    RunCovered(w, actions, pace);
  }

  lemma {:induction false} SilentLease(w: Watched, actions: seq<Action>, pace: Pace, id: TaskId, attempt: nat, worker: WorkerId)
    requires Coherent(w.db) && Covered(w, pace) && Punctual(w, actions, pace)
    requires Holds(w.db, id, attempt, worker) && Silent(actions, id, attempt, worker)
    requires Holds(Performed(w, actions).db, id, attempt, worker)
    ensures Performed(w, actions).db.tasks[id].leaseExpiresAt == w.db.tasks[id].leaseExpiresAt
  {
    if actions == [] {
    } else {
      var front, last := actions[..|actions| - 1], actions[|actions| - 1];
      SilentParts(actions, id, attempt, worker);
      StillThere(w, front, pace, id, attempt, worker);
      ActionKeepsLease(Performed(w, front), last, id, attempt, worker);
      SilentLease(w, front, pace, id, attempt, worker);
    }
  }

  /** A worker that falls silent loses its task by last claim or renewal + lease_ttl_s + reaper_period_s
      and the length of a sweep:
      `renewed` is that last moment, and whatever happens in between, once the clock is past the bound
      the tenure is over. */
  lemma SilentWorkerIsGone(w: Watched, actions: seq<Action>, pace: Pace, ttl: nat, renewed: Time,
                           id: TaskId, attempt: nat, worker: WorkerId)
    requires Coherent(w.db) && Covered(w, pace) && Punctual(w, actions, pace)
    requires Holds(w.db, id, attempt, worker) && ExpiresAt(w.db.tasks[id], renewed + Seconds(ttl))
    requires Silent(actions, id, attempt, worker)
    requires Performed(w, actions).db.now > renewed + Seconds(ttl) + Seconds(pace.longest + pace.period)
    ensures !Holds(Performed(w, actions).db, id, attempt, worker)
  {
    RunCovered(w, actions, pace);
    if Holds(Performed(w, actions).db, id, attempt, worker) {
      SilentLease(w, actions, pace, id, attempt, worker);
    }
  }

  // ---- a live worker ----------------------------------------------------------------------------------------------

  /** A run with every state on the way: `states[n]` is the state after n steps. */
  ghost predicate IsTrace(states: seq<Db>, steps: seq<Step>) {
    |states| == |steps| + 1 && forall i | 0 <= i < |steps| :: states[i + 1] == Apply(states[i], steps[i])
  }

  lemma {:induction false} TraceCoherent(states: seq<Db>, steps: seq<Step>, n: nat)
    requires IsTrace(states, steps) && n < |states| && Coherent(states[0])
    ensures states[n] == Run(states[0], steps[..n])
    ensures Coherent(states[n]) && Forward(states[0], states[n])
  {
    if n == 0 {
    } else {
      TraceCoherent(states, steps, n - 1);
      assert steps[..n][..n - 1] == steps[..n - 1] && steps[n - 1] == steps[..n][n - 1];
      assert states[n - 1 + 1] == Apply(states[n - 1], steps[n - 1]);
    }
    RunCoherent(states[0], steps[..n]);
  }

  /** When the tenure was last renewed, by a renewal that was accepted. */
  function LastRenewed(states: seq<Db>, steps: seq<Step>, n: nat, granted: Time, id: TaskId, attempt: nat, worker: WorkerId): Time
    requires n <= |steps| < |states|
  {
    if n == 0 then granted
    else RenewedBy(states[n - 1], steps[n - 1], LastRenewed(states, steps, n - 1, granted, id, attempt, worker), id, attempt, worker)
  }

  function RenewedBy(before: Db, s: Step, renewed: Time, id: TaskId, attempt: nat, worker: WorkerId): Time {
    if IsRenewal(s, id, attempt, worker) && Renewable(before, id, attempt, worker) then before.now else renewed
  }

  /** While the worker holds the task it renews, with the configured ttl, at most three intervals after
      the grant or the last accepted renewal. */
  ghost predicate Diligent(states: seq<Db>, steps: seq<Step>, granted: Time, id: TaskId, attempt: nat, worker: WorkerId, s: Settings)
    requires |states| == |steps| + 1
  {
    && (forall k | 0 <= k < |steps| && IsRenewal(steps[k], id, attempt, worker) :: steps[k].ttl == s.leaseTtl)
    && (forall n | 0 <= n < |states| && Holds(states[n], id, attempt, worker) ::
          states[n].now <= LastRenewed(states, steps, n, granted, id, attempt, worker) + Seconds(3 * s.leaseRenewInterval))
  }

  /** The only ways a tenure with an unexpired lease can end: by its own completion or hand-back, or by
      the execution-time cap. */
  predicate EndsTenure(db: Db, s: Step, id: TaskId, attempt: nat, worker: WorkerId) {
    || ((s.Finishing? || s.HandBack?) && s.id == id && s.attempt == attempt && s.worker == worker)
    || (s.Recovery? && s.id == id && s.phase == HungPhase && id in db.tasks && ExecutionTimeExceeded(db.tasks[id], db.now))
  }

  lemma MoveEnds(db: Db, s: Step, id: TaskId, attempt: nat, worker: WorkerId, t': Task)
    requires Renewable(db, id, attempt, worker) && Moved(db, s, id, db.tasks[id], t')
    requires !(t'.state == Running && t'.attempt == attempt && t'.leaseWorker == Some(worker))
    ensures EndsTenure(db, s, id, attempt, worker)
  {}

  lemma LiveTenureEnds(db: Db, s: Step, id: TaskId, attempt: nat, worker: WorkerId)
    requires Coherent(db) && Renewable(db, id, attempt, worker) && !Holds(Apply(db, s), id, attempt, worker)
    ensures EndsTenure(db, s, id, attempt, worker)
  {
    StepMoves(db, s);
    MoveEnds(db, s, id, attempt, worker, Apply(db, s).tasks[id]);
  }

  lemma LeaseHeld(db: Db, renewed: Time, id: TaskId, attempt: nat, worker: WorkerId, s: Settings)
    requires ValidTiming(s) && Holds(db, id, attempt, worker)
    requires ExpiresAt(db.tasks[id], renewed + Seconds(s.leaseTtl))
    requires db.now <= renewed + Seconds(3 * s.leaseRenewInterval)
    ensures Renewable(db, id, attempt, worker) && ReapOne(db, LeasePhase, id) == db
  {
    ReapOneShape(db, LeasePhase, id);
  }

  /** What the check is for, exactly: the settings pass iff a renewal that comes three intervals after the last
      one, two of them lost, is accepted, and a worker has more than two heartbeats before it counts as dead. */
  lemma LateRenewalIff(db: Db, renewed: Time, id: TaskId, attempt: nat, worker: WorkerId, s: Settings)
    requires Holds(db, id, attempt, worker) && ExpiresAt(db.tasks[id], renewed + Seconds(s.leaseTtl))
    requires db.now == renewed + Seconds(3 * s.leaseRenewInterval)
    ensures ValidTiming(s) <==> Renew(db, id, attempt, worker, s.leaseTtl).1.Some?
                                 && s.heartbeatInterval + s.heartbeatInterval < s.workerDeadAfter
  {
    LateIff(s.leaseTtl, 3 * s.leaseRenewInterval);
  }

  lemma LateIff(ttl: nat, late: nat)
    ensures Seconds(ttl) > Seconds(late) <==> ttl > late
  {}

  lemma LeaseAfter(before: Db, s: Step, renewed: Time, id: TaskId, attempt: nat, worker: WorkerId, ttl: nat)
    requires Coherent(before) && Holds(before, id, attempt, worker) && Holds(Apply(before, s), id, attempt, worker)
    requires IsRenewal(s, id, attempt, worker) ==> s.ttl == ttl
    requires ExpiresAt(before.tasks[id], renewed + Seconds(ttl))
    ensures ExpiresAt(Apply(before, s).tasks[id], RenewedBy(before, s, renewed, id, attempt, worker) + Seconds(ttl))
  {
    StepKeepsLease(before, s, id, attempt, worker);
  }

  /** The lease of a held task runs from its last renewal. */
  lemma {:induction false} LiveLease(states: seq<Db>, steps: seq<Step>, n: nat, granted: Time,
                                     id: TaskId, attempt: nat, worker: WorkerId, s: Settings)
    requires IsTrace(states, steps) && n < |states| && Coherent(states[0]) && Holds(states[0], id, attempt, worker)
    requires ExpiresAt(states[0].tasks[id], granted + Seconds(s.leaseTtl))
    requires Diligent(states, steps, granted, id, attempt, worker, s) && Holds(states[n], id, attempt, worker)
    ensures ExpiresAt(states[n].tasks[id], LastRenewed(states, steps, n, granted, id, attempt, worker) + Seconds(s.leaseTtl))
  {
    if n == 0 {
    } else {
      TraceCoherent(states, steps, n - 1);
      assert states[n] == states[n - 1 + 1];
      StepKeepsLease(states[n - 1], steps[n - 1], id, attempt, worker);
      LiveLease(states, steps, n - 1, granted, id, attempt, worker, s);
      LeaseAfter(states[n - 1], steps[n - 1], LastRenewed(states, steps, n - 1, granted, id, attempt, worker),
                 id, attempt, worker, s.leaseTtl);
    }
  }

  lemma LiveNow(states: seq<Db>, steps: seq<Step>, n: nat, granted: Time, id: TaskId, attempt: nat, worker: WorkerId, s: Settings)
    requires IsTrace(states, steps) && n < |states| && Coherent(states[0]) && Holds(states[0], id, attempt, worker)
    requires ValidTiming(s) && ExpiresAt(states[0].tasks[id], granted + Seconds(s.leaseTtl))
    requires Diligent(states, steps, granted, id, attempt, worker, s) && Holds(states[n], id, attempt, worker)
    ensures Renewable(states[n], id, attempt, worker) && ReapOne(states[n], LeasePhase, id) == states[n]
  {
    LiveLease(states, steps, n, granted, id, attempt, worker, s);
    LeaseHeld(states[n], LastRenewed(states, steps, n, granted, id, attempt, worker), id, attempt, worker, s);
  }

  ghost predicate EndedAt(states: seq<Db>, steps: seq<Step>, k: nat, id: TaskId, attempt: nat, worker: WorkerId)
    requires k < |steps| < |states|
  {
    Holds(states[k], id, attempt, worker) && EndsTenure(states[k], steps[k], id, attempt, worker)
  }

  lemma {:induction false} LiveEnd(states: seq<Db>, steps: seq<Step>, n: nat, granted: Time,
                                   id: TaskId, attempt: nat, worker: WorkerId, s: Settings)
    requires IsTrace(states, steps) && n < |states| && Coherent(states[0]) && Holds(states[0], id, attempt, worker)
    requires ValidTiming(s) && ExpiresAt(states[0].tasks[id], granted + Seconds(s.leaseTtl))
    requires Diligent(states, steps, granted, id, attempt, worker, s) && !Holds(states[n], id, attempt, worker)
    ensures exists k | 0 <= k < n :: EndedAt(states, steps, k, id, attempt, worker)
  {
    if Holds(states[n - 1], id, attempt, worker) {
      TraceCoherent(states, steps, n - 1);
      assert states[n] == states[n - 1 + 1];
      LiveNow(states, steps, n - 1, granted, id, attempt, worker, s);
      LiveTenureEnds(states[n - 1], steps[n - 1], id, attempt, worker);
      assert EndedAt(states, steps, n - 1, id, attempt, worker);
    } else {
      LiveEnd(states, steps, n - 1, granted, id, attempt, worker, s);
    }
  }

  /** A live worker keeps its lease. Under `validate_timing`, as long as accepted renewals are at most
      three intervals apart: while it holds the task its lease has not expired, its next renewal will be
      accepted, and lease recovery of it does nothing; and if it no longer holds the task, then it
      ended the attempt itself or the execution-time cap did. */
  lemma LiveWorkerKeepsLease(states: seq<Db>, steps: seq<Step>, n: nat, granted: Time,
                             id: TaskId, attempt: nat, worker: WorkerId, s: Settings)
    requires IsTrace(states, steps) && n < |states| && Coherent(states[0]) && Holds(states[0], id, attempt, worker)
    requires ValidTiming(s) && ExpiresAt(states[0].tasks[id], granted + Seconds(s.leaseTtl))
    requires Diligent(states, steps, granted, id, attempt, worker, s)
    ensures if Holds(states[n], id, attempt, worker)
            then Renewable(states[n], id, attempt, worker) && ReapOne(states[n], LeasePhase, id) == states[n]
            else exists k | 0 <= k < n :: EndedAt(states, steps, k, id, attempt, worker)
  {
    if Holds(states[n], id, attempt, worker) {
      LiveNow(states, steps, n, granted, id, attempt, worker, s);
    } else {
      LiveEnd(states, steps, n, granted, id, attempt, worker, s);
    }
  }
}
