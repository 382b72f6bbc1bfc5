/** Short runs from the empty database that show what the code does where its comments promise otherwise. */
module Incidents {
  import opened Wrappers
  import opened Orders
  import opened States
  import opened Tables
  import opened Agents
  import opened Completion
  import opened Claim
  import opened Rounds
  import opened Reap
  import opened Tasks
  import opened Ledger
  import opened Protocol

  const W: WorkerId := "w"
  const TTL: nat := 30
  const LIMITS: Tenant := Tenant(1, 9)
  const QUIET: Ambient := Ambient(0, 0, None)

  /** A task anybody may run, within a minute. */
  function JobOf(tenant: TenantId, maxAttempts: nat): Request {
    Request(tenant, "echo", map[], None, 0, maxAttempts, 60, None, None, [])
  }

  function Submitted(maxAttempts: nat): Task {
    NewTask(JobOf(0, maxAttempts), 0)
  }

  // How a worker asks for work: its batch, its capabilities, its rounds.
  datatype Call = Call(limit: nat, caps: seq<string>, rounds: nat)

  predicate Asks(c: Call) {
    c.limit >= 1 && c.rounds >= 1
  }

  function Take(c: Call, ttl: nat): Step {
    Claiming(W, c.limit, ttl, c.caps, {}, c.rounds)
  }

  function Taken(db: Db, c: Call): seq<TaskId> {
    ClaimWithin(db, c.caps, c.limit, {}, c.rounds)
  }

  // ---- a database with one task -----------------------------------------------------------------------------------

  /** One tenant, allowed one task at a time, and one task. */
  ghost predicate At(db: Db, now: Time, t: Task) {
    db.now == now && db.tenants == map[0 := LIMITS] && db.tasks == map[0 := t]
  }

  /** A ready task of tenant 0 that asks for no capability. */
  ghost predicate Free(t: Task, now: Time) {
    Ready(t, now) && t.tenant == 0 && KeyStored(t) && t.requiredCapabilities == []
  }

  /** Any worker may take it. */
  lemma FreeForAll(t: Task, caps: seq<string>)
    requires KeyStored(t) && t.requiredCapabilities == []
    ensures Eligible(t, caps)
  {
    assert Normalised([]) == {};
    SatisfiedKeyIsListed([], Sorted(Normalised(caps)));
  }

  lemma OnlyRow(db: Db, t: Task, caps: seq<string>)
    requires At(db, db.now, t) && Free(t, db.now)
    ensures EligibleRows(db, caps, {}) == {CandidateOf(0, t)}
  {
    FreeForAll(t, caps);
    assert db.tasks[0] == t;
    forall c ensures c in EligibleRows(db, caps, {}) <==> c == CandidateOf(0, t) {
      if c in EligibleRows(db, caps, {}) {
        var id :| id in db.tasks && c == CandidateOf(id, db.tasks[id]);
      }
    }
  }

  lemma OneRowOrder(rows: set<Candidate>, c: Candidate)
    requires rows == {c}
    ensures Order(rows) == [c]
  {
    OrderFacts(rows);
    assert Order(rows)[0] in Elements(Order(rows));
  }

  lemma OneRowSlack(db: Db, t: Task)
    requires At(db, db.now, t) && t.tenant == 0 && t.state == Queued
    ensures !NoSlack(db, [], 0)
  {
    assert RunningSet(db.tasks, 0) == {};
  }

  /** Whoever asks for work takes the one ready task of an idle tenant. */
  lemma TakesTheOnlyTask(db: Db, t: Task, c: Call)
    requires At(db, db.now, t) && Free(t, db.now) && Asks(c)
    ensures Taken(db, c) == [0]
  {
    OnlyRow(db, t, c.caps);
    OneRowOrder(EligibleRows(db, c.caps, {}), CandidateOf(0, t));
    OneRowSlack(db, t);
    EmptyClaimIff(db, c.caps, c.limit, {}, c.rounds);
    ClaimGuarantee(db, c.caps, c.limit, {}, c.rounds);
    assert !NoSlack(db, [], [CandidateOf(0, t)][0].id);
    OnlyZero(Taken(db, c));
  }

  lemma OnlyZero(ids: seq<TaskId>)
    requires ids != [] && Distinct(ids) && forall id <- ids :: id == 0
    ensures ids == [0]
  {
    assert ids[0] in ids;
    if |ids| > 1 {
      FirstTwo(ids);
      assert false;
    }
  }

  lemma FirstTwo(ids: seq<TaskId>)
    requires |ids| > 1 && Distinct(ids)
    ensures ids[0] in ids && ids[1] in ids && ids[0] != ids[1]
  {}

  lemma GrantOne(db: Db, ttl: nat)
    requires 0 in db.tasks
    ensures var after := GrantAll(db, [0], W, ttl);
      after.now == db.now && after.tenants == db.tenants && after.tasks == db.tasks[0 := GrantedRow(db.tasks[0], W, ttl, db.now)]
  {
    assert [0][..0] == [];
    assert GrantAll(db, [], W, ttl) == db;
  }

  lemma StillAt(db: Db, t: Task, after: Db, t': Task)
    requires At(db, db.now, t) && after.now == db.now && after.tenants == db.tenants && after.tasks == db.tasks[0 := t']
    ensures At(after, db.now, t')
  {}

  lemma ClaimGrants(db: Db, c: Call, ttl: nat, ids: seq<TaskId>)
    requires Taken(db, c) == ids && !Duplicate(db, ids)
    ensures ClaimTo(db, W, c.limit, ttl, c.caps, {}, c.rounds) == GrantAll(db, ids, W, ttl)
  {}

  lemma ClaimedTask(db: Db, t: Task, c: Call, ttl: nat)
    requires Coherent(db) && At(db, db.now, t) && Free(t, db.now) && Asks(c)
    ensures At(ClaimTo(db, W, c.limit, ttl, c.caps, {}, c.rounds), db.now, GrantedRow(t, W, ttl, db.now))
    ensures Taken(db, c) == [0] && !Duplicate(db, [0])
  {
    TakesTheOnlyTask(db, t, c);
    NoDuplicates(db, [0]);
    GrantOne(db, ttl);
    ClaimGrants(db, c, ttl, [0]);
    StillAt(db, t, GrantAll(db, [0], W, ttl), GrantedRow(t, W, ttl, db.now));
  }

  lemma TakeIsClaim(db: Db, c: Call, ttl: nat)
    ensures Apply(db, Take(c, ttl)) == ClaimTo(db, W, c.limit, ttl, c.caps, {}, c.rounds)
  {}

  lemma ClaimStep(db: Db, t: Task, c: Call, ttl: nat)
    requires Coherent(db) && At(db, db.now, t) && Free(t, db.now) && Asks(c)
    ensures At(Apply(db, Take(c, ttl)), db.now, GrantedRow(t, W, ttl, db.now))
  {
    ClaimedTask(db, t, c, ttl);
    TakeIsClaim(db, c, ttl);
  }

  /** A tenant's first task is admitted. */
  lemma Arrival(maxAttempts: nat)
    requires maxAttempts >= 1
    ensures At(Apply(Apply(EMPTY, AddTenant(0, LIMITS)), Submission(JobOf(0, maxAttempts), 0, QUIET)), 0, Submitted(maxAttempts))
  {
    var db := Apply(EMPTY, AddTenant(0, LIMITS));
    assert QueuedSet(db.tasks, 0) == {};
    assert SameKey(db.tasks, 0, None) == {};
  }

  // ---- runs -------------------------------------------------------------------------------------------------------

  /** One step more. */
  lemma Onward(front: seq<Step>, s: Step)
    ensures Run(EMPTY, front + [s]) == Apply(Run(EMPTY, front), s) && Coherent(Run(EMPTY, front + [s]))
  {
    assert (front + [s])[..|front|] == front;
    EmptyCoherent();
    RunCoherent(EMPTY, front + [s]);
  }

  function Entering(maxAttempts: nat): seq<Step> {
    [AddTenant(0, LIMITS)] + [Submission(JobOf(0, maxAttempts), 0, QUIET)]
  }

  lemma Entered(maxAttempts: nat)
    requires maxAttempts >= 1
    ensures At(Run(EMPTY, Entering(maxAttempts)), 0, Submitted(maxAttempts)) && Coherent(Run(EMPTY, Entering(maxAttempts)))
  {
    Onward([], AddTenant(0, LIMITS));
    assert [] + [AddTenant(0, LIMITS)] == [AddTenant(0, LIMITS)];
    Onward([AddTenant(0, LIMITS)], Submission(JobOf(0, maxAttempts), 0, QUIET));
    Arrival(maxAttempts);
  }

  /** A task, and a worker that claims it. */
  function Opening(maxAttempts: nat, c: Call): seq<Step> {
    Entering(maxAttempts) + [Take(c, TTL)]
  }

  function Granted(maxAttempts: nat): Task {
    GrantedRow(Submitted(maxAttempts), W, TTL, 0)
  }

  lemma Opened(maxAttempts: nat, c: Call)
    requires maxAttempts >= 1 && Asks(c)
    ensures At(Run(EMPTY, Opening(maxAttempts, c)), 0, Granted(maxAttempts)) && Coherent(Run(EMPTY, Opening(maxAttempts, c)))
  {
    Entered(maxAttempts);
    Onward(Entering(maxAttempts), Take(c, TTL));
    ClaimStep(Run(EMPTY, Entering(maxAttempts)), Submitted(maxAttempts), c, TTL);
  }

  /** A step that turns the one row into another. */
  lemma Turned(front: seq<Step>, s: Step, now: Time, t: Task)
    requires At(Apply(Run(EMPTY, front), s), now, t)
    ensures At(Run(EMPTY, front + [s]), now, t) && Coherent(Run(EMPTY, front + [s]))
  {
    Onward(front, s);
  }

  // ---- a budget of one, used twice ----------------------------------------------------------------------------------

  const SHUT_DOWN: string := "worker_shutdown"

  function HandedBackAgain(c: Call): seq<Step> {
    Opening(1, c) + [HandBack(0, 1, W, SHUT_DOWN)] + [Take(c, TTL)]
  }

  lemma HandedBackAtOnce(db: Db)
    requires At(db, 0, Granted(1))
    ensures var t := EndedRow(Granted(1), Abandon(SHUT_DOWN), 0);
      At(Apply(db, HandBack(0, 1, W, SHUT_DOWN)), 0, t) && Free(t, 0) && t.attempt == 1
  {
    CompleteShape(db, 0, 1, W, Abandon(SHUT_DOWN));
  }

  /** A hand-back of the last attempt takes the task past its budget: with max_attempts 1 it is granted as
      attempt 2. */
  lemma OverBudgetExample(c: Call)
    requires Asks(c)
    ensures var db := Run(EMPTY, HandedBackAgain(c)); 0 in db.tasks && db.tasks[0].maxAttempts == 1 && db.tasks[0].attempt == 2
  {
    var opening, back := Opening(1, c), HandBack(0, 1, W, SHUT_DOWN);
    var t := EndedRow(Granted(1), Abandon(SHUT_DOWN), 0);
    Opened(1, c);
    HandedBackAtOnce(Run(EMPTY, opening));
    Turned(opening, back, 0, t);
    ClaimStep(Run(EMPTY, opening + [back]), t, c, TTL);
    Onward(opening + [back], Take(c, TTL));
  }

  // ---- a cancel request nobody answers --------------------------------------------------------------------------------

  const EXPIRED: Time := 31_000_000

  /** A running task is asked to stop, its worker is gone, and the reaper takes it back. */
  function AskedAndLost(c: Call): seq<Step> {
    Opening(3, c) + [Cancellation(0)] + [Tick(EXPIRED)] + [Recovery(LeasePhase, 0)]
  }

  lemma AskedToStop(db: Db, t: Task)
    requires At(db, db.now, t) && t.state == Running
    ensures At(Apply(db, Cancellation(0)), db.now, t.(cancelRequested := true))
  {
    CancelShape(db, 0);
  }

  lemma Waited(db: Db, t: Task, d: nat)
    requires At(db, db.now, t)
    ensures At(Apply(db, Tick(d)), db.now + d, t)
  {}

  lemma TakenBack(db: Db, t: Task, phase: Phase)
    requires At(db, db.now, t) && Overdue(t, phase, db.now)
    ensures At(Apply(db, Recovery(phase, 0)), db.now, ReapedRow(t, phase, db.now))
  {
    ReapOneShape(db, phase, 0);
  }

  /** The recovered task waits for the next worker, with the request still on its row. */
  lemma IgnoredRequestExample(c: Call)
    requires Asks(c)
    ensures var db := Run(EMPTY, AskedAndLost(c)); 0 in db.tasks && db.tasks[0].state == Queued && db.tasks[0].cancelRequested
  {
    var t := Granted(3).(cancelRequested := true);
    var front := Opening(3, c);
    Opened(3, c);
    AskedToStop(Run(EMPTY, front), Granted(3));
    Turned(front, Cancellation(0), 0, t);
    LostAndFound(front + [Cancellation(0)], t);
  }

  /** A lease runs out, and the reaper takes the task back. */
  lemma LostAndFound(front: seq<Step>, t: Task)
    requires At(Run(EMPTY, front), 0, t) && t.state == Running && t.leaseExpiresAt == Some(Seconds(TTL))
    ensures At(Run(EMPTY, front + [Tick(EXPIRED)] + [Recovery(LeasePhase, 0)]), EXPIRED, ReapedRow(t, LeasePhase, EXPIRED))
  {
    Waited(Run(EMPTY, front), t, EXPIRED);
    Turned(front, Tick(EXPIRED), EXPIRED, t);
    TakenBack(Run(EMPTY, front + [Tick(EXPIRED)]), t, LeasePhase);
    Turned(front + [Tick(EXPIRED)], Recovery(LeasePhase, 0), EXPIRED, ReapedRow(t, LeasePhase, EXPIRED));
  }

  // ---- a task that is hung when it is granted ---------------------------------------------------------------------------

  const HALF: nat := 30_000_000

  /** A task is lost, taken back, and claimed again a minute after its first start. */
  function ClaimedLate(c: Call): seq<Step> {
    Opening(3, c) + [Tick(EXPIRED)] + [Recovery(LeasePhase, 0)] + [Tick(HALF)] + [Take(c, TTL)]
  }

  /** The second attempt has only just begun, and a hung-task recovery takes it away. */
  lemma HungAtOnceExample(c: Call)
    requires Asks(c)
    ensures var db := Run(EMPTY, ClaimedLate(c));
      && 0 in db.tasks && db.tasks[0].state == Running && db.tasks[0].attempt == 2
      && db.tasks[0].leaseExpiresAt == Some(db.now + Seconds(TTL))
      && 0 in ReapOne(db, HungPhase, 0).tasks && ReapOne(db, HungPhase, 0).tasks[0].state == Queued
  {
    var t := ReapedRow(Granted(3), LeasePhase, EXPIRED);
    var front := Opening(3, c) + [Tick(EXPIRED)] + [Recovery(LeasePhase, 0)];
    Opened(3, c);
    LostAndFound(Opening(3, c), Granted(3));
    Waited(Run(EMPTY, front), t, HALF);
    Turned(front, Tick(HALF), EXPIRED + HALF, t);
    ClaimStep(Run(EMPTY, front + [Tick(HALF)]), t, c, TTL);
    Turned(front + [Tick(HALF)], Take(c, TTL), EXPIRED + HALF, GrantedRow(t, W, TTL, EXPIRED + HALF));
    ReapOneShape(Run(EMPTY, ClaimedLate(c)), HungPhase, 0);
  }

  // ---- a resubmission that is refused --------------------------------------------------------------------------------------

  const KEYED: Request := JobOf(0, 3).(idempotencyKey := Some("key"))

  /** A tenant with room for one task in its backlog, and that task. */
  function FullBacklog(): seq<Step> {
    [AddTenant(0, Tenant(1, 1))] + [Submission(KEYED, 0, QUIET)]
  }

  lemma FullBacklogHolds(db: Db)
    requires db == Apply(Apply(EMPTY, AddTenant(0, Tenant(1, 1))), Submission(KEYED, 0, QUIET))
    ensures db.tenants == map[0 := Tenant(1, 1)] && db.tasks == map[0 := NewTask(KEYED, 0)]
  {
    var before := Apply(EMPTY, AddTenant(0, Tenant(1, 1)));
    assert QueuedSet(before.tasks, 0) == {};
    assert SameKey(before.tasks, 0, KEYED.idempotencyKey) == {};
  }

  /** The very same submission again is not answered with the task it made, but refused for backlog. */
  lemma RefusedResubmissionExample(id: TaskId, after: Db, res: Submitted)
    requires ApiOutcome(Run(EMPTY, FullBacklog()), KEYED, id, QUIET, after, res)
    ensures var db := Run(EMPTY, FullBacklog());
      && 0 in db.tasks && db.tasks[0].tenant == KEYED.tenant && db.tasks[0].idempotencyKey == KEYED.idempotencyKey
      && db.tasks[0].payload == KEYED.payload && res == QuotaExceeded && after == db
  {
    var db := Run(EMPTY, FullBacklog());
    Onward([], AddTenant(0, Tenant(1, 1)));
    assert [] + [AddTenant(0, Tenant(1, 1))] == [AddTenant(0, Tenant(1, 1))];
    Onward([AddTenant(0, Tenant(1, 1))], Submission(KEYED, 0, QUIET));
    FullBacklogHolds(db);
    assert QueuedSet(db.tasks, 0) == {0};
  }

  // ---- a claim that comes back empty --------------------------------------------------------------------------------------

  /** Tenant 0 has one task running and four waiting, and behind them waits one of tenant 1. */
  function Owner(id: TaskId): TenantId {
    if id < 5 then 0 else 1
  }

  /** The step that adds task `id`. */
  function Joining(id: TaskId): Step {
    Submission(JobOf(Owner(id), 3), id, QUIET)
  }

  /** A task that runs, a second tenant, and then tasks 1 to `n`. */
  function Gathering(c: Call, n: nat): seq<Step> {
    if n == 0 then Opening(3, c) + [AddTenant(1, LIMITS)] else Gathering(c, n - 1) + [Joining(n)]
  }

  ghost predicate Gathered(db: Db, n: nat) {
    && db.now == 0 && db.tenants == map[0 := LIMITS, 1 := LIMITS] && |db.tasks| == n + 1
    && (forall id: TaskId :: id in db.tasks <==> id <= n)
    && (forall id <- db.tasks :: db.tasks[id] == if id == 0 then Granted(3) else NewTask(JobOf(Owner(id), 3), 0))
  }

  /** A tenant below its backlog bound is admitted. */
  lemma Admitted(db: Db, tenant: TenantId, id: TaskId)
    requires tenant in db.tenants && db.tenants[tenant] == LIMITS && |db.tasks| < LIMITS.maxQueued && id !in db.tasks
    ensures Apply(db, Submission(JobOf(tenant, 3), id, QUIET)) == Inserted(db, JobOf(tenant, 3), id)
  {
    SubsetSize(QueuedSet(db.tasks, tenant), db.tasks.Keys);
    assert SameKey(db.tasks, tenant, None) == {};
  }

  lemma Joins(db: Db, id: TaskId)
    requires 1 <= id <= 5 && Gathered(db, id - 1)
    ensures Gathered(Apply(db, Joining(id)), id)
  {
    Admitted(db, Owner(id), id);
  }

  lemma SecondTenant(db: Db)
    requires At(db, 0, Granted(3))
    ensures Gathered(Apply(db, AddTenant(1, LIMITS)), 0)
  {}

  lemma {:induction false} CrowdGathers(c: Call, n: nat)
    requires Asks(c) && n <= 5
    ensures Gathered(Run(EMPTY, Gathering(c, n)), n)
  {
    if n == 0 {
      GatheringStarts(c);
    } else {
      CrowdGathers(c, n - 1);
      OneMoreJoins(c, n);
    }
  }

  lemma OneMoreJoins(c: Call, n: nat)
    requires 1 <= n <= 5 && Gathered(Run(EMPTY, Gathering(c, n - 1)), n - 1)
    ensures Gathered(Run(EMPTY, Gathering(c, n)), n)
  {
    Onward(Gathering(c, n - 1), Joining(n));
    Joins(Run(EMPTY, Gathering(c, n - 1)), n);
  }

  lemma GatheringStarts(c: Call)
    requires Asks(c)
    ensures Gathered(Run(EMPTY, Gathering(c, 0)), 0)
  {
    Opened(3, c);
    Onward(Opening(3, c), AddTenant(1, LIMITS));
    SecondTenant(Run(EMPTY, Opening(3, c)));
  }

  function Line(): seq<Candidate> {
    [Candidate(0, 0, 1), Candidate(0, 0, 2), Candidate(0, 0, 3), Candidate(0, 0, 4), Candidate(0, 0, 5)]
  }

  lemma InLine(db: Db, r: Candidate)
    requires Gathered(db, 5)
    ensures r in Line() <==> 1 <= r.id <= 5 && r == CandidateOf(r.id, db.tasks[r.id])
  {}

  lemma IsOffered(db: Db, caps: seq<string>, r: Candidate)
    requires Gathered(db, 5)
    ensures r in EligibleRows(db, caps, {}) <==> 1 <= r.id <= 5 && r == CandidateOf(r.id, db.tasks[r.id])
  {
    if 1 <= r.id <= 5 { FreeForAll(db.tasks[r.id], caps); }
  }

  lemma LineIsAll(db: Db, caps: seq<string>)
    requires Gathered(db, 5)
    ensures Elements(Line()) == EligibleRows(db, caps, {})
  {
    forall r ensures r in Line() <==> r in EligibleRows(db, caps, {}) {
      InLine(db, r);
      IsOffered(db, caps, r);
    }
  }

  lemma LineIsOrdered(rows: set<Candidate>)
    requires rows == Elements(Line())
    ensures Order(rows) == Line()
  {
    BeforeIsTotalOrder();
    IncreasingIsAscending(Line(), Before);
  }

  lemma LineSlack(db: Db)
    requires Gathered(db, 5)
    ensures Slack(db, 0) == 0 && Slack(db, 1) == 1
  {
    assert RunningSet(db.tasks, 0) == {0};
    assert RunningSet(db.tasks, 1) == {};
  }

  lemma LineBlocked(db: Db, n: nat)
    requires Gathered(db, 5) && n <= 4
    ensures Blocked(db, Line(), n) && !Blocked(db, Line(), 5)
  {
    LineSlack(db);
    assert !NoSlack(db, [], Line()[4].id);
  }

  lemma FourRows()
    ensures Reach(1, MAX_ROUNDS) == 4
  {}

  /** A worker that looks at four rows at most gets nothing, although the fifth task is claimable and the
      greedy pass takes it. One that asks for one task, in MAX_ROUNDS rounds, is such a worker. */
  lemma StarvedExample(first: Call, c: Call)
    requires Asks(first) && c.limit >= 1 && Reach(c.limit, c.rounds) <= 4
    ensures var db := Run(EMPTY, Gathering(first, 5));
      Taken(db, c) == [] && Greedy(db, Order(EligibleRows(db, c.caps, {})), c.limit) != []
    ensures Reach(1, MAX_ROUNDS) == 4
  {
    var db := Run(EMPTY, Gathering(first, 5));
    FourRows();
    CrowdGathers(first, 5);
    LineIsAll(db, c.caps);
    LineIsOrdered(EligibleRows(db, c.caps, {}));
    LineBlocked(db, Reach(c.limit, c.rounds));
    StarvedIff(db, Line(), c.caps, c.limit, {}, c.rounds);
  }
}
