/** What each transaction of the protocol does statement by statement, and that, alone at its commit, it is
    the protocol's step. */
module Scripts {
  import opened Wrappers
  import opened Orders
  import opened States
  import opened Tables
  import opened Transitions
  import opened Completion
  import opened Claim
  import opened Rounds
  import opened Reap
  import opened Tasks
  import opened Protocol
  import opened Moves
  import opened Budget
  import opened Locking
  import opened Serial

  /** The tables of the protocol as the statements see them, no transaction open. */
  function Quiet(db: Db): World {
    World(db.tasks, Holders(db.attempts), map[])
  }

  /** These statements, each of them taking, build up this transaction. */
  ghost predicate Built(db: Db, tx: TxId, own: seq<Statement>, x: Tx) {
    Replayed(db.tasks, own, tx) == Some(x)
  }

  // ---- the scripts --------------------------------------------------------------------------------------------------

  function EndScript(db: Db, tx: TxId, id: TaskId, attempt: nat, worker: WorkerId, e: Ending): seq<Statement> {
    [Begin(tx, db.now, false)]
    + if Holds(db, id, attempt, worker) then [Update(tx, id, Fence(attempt, worker), Target(e), PatchOf(e))] else []
  }

  function RenewScript(db: Db, tx: TxId, id: TaskId, attempt: nat, worker: WorkerId, ttl: nat): seq<Statement> {
    [Begin(tx, db.now, false)] + if Renewable(db, id, attempt, worker) then [ExtendLease(tx, id, attempt, worker, ttl)] else []
  }

  /** The recovery's target and columns, by the row's budget. */
  function RecoveryUpdate(tx: TxId, id: TaskId, t: Task, phase: Phase): Statement {
    if t.attempt < t.maxAttempts
    then Update(tx, id, ReaperFence(phase), Queued, Patch(Some(0), true, false, None, Some(ErrorOf(phase)), false))
    else Update(tx, id, ReaperFence(phase), Failed, Patch(None, true, true, None, Some(ErrorOf(phase)), false))
  }

  function RecoveryScript(db: Db, tx: TxId, phase: Phase, id: TaskId): seq<Statement> {
    [Begin(tx, db.now, false)]
    + if id in db.tasks && Overdue(db.tasks[id], phase, db.now)
      then [PickDue(tx, phase, {id})] + [RecoveryUpdate(tx, id, db.tasks[id], phase)] else []
  }

  function CancelScript(db: Db, tx: TxId, id: TaskId): seq<Statement> {
    [Begin(tx, db.now, false)]
    + if id !in db.tasks then []
      else [LockRow(tx, id)]
           + if db.tasks[id].state == Queued then [Update(tx, id, Guard([Queued], None, None, false, false), Cancelled, CANCEL_PATCH)]
             else if db.tasks[id].state == Running && !db.tasks[id].cancelRequested then [FlagRow(tx, id)]
             else []
  }

  function ClaimScript(db: Db, tx: TxId, worker: WorkerId, ttl: nat, ids: seq<TaskId>): seq<Statement> {
    [Begin(tx, db.now, true)] + [PickReady(tx, Elements(ids))] + [GrantPicked(tx, Granted(Elements(ids), worker, ttl))]
  }

  const AGENT_PATCH: Patch := Patch(None, false, true, None, Some("AgentDisabled"), true)

  /** What the agent sweep does to one row: end it or flag it. */
  function SweepStatement(db: Db, tx: TxId, id: TaskId): Statement {
    if id in db.tasks && db.tasks[id].state == Queued
    then Update(tx, id, Guard([Queued], None, None, false, false), Cancelled, AGENT_PATCH)
    else FlagRow(tx, id)
  }

  function SweepAll(db: Db, tx: TxId, ids: seq<TaskId>): seq<Statement> {
    if ids == [] then [] else SweepAll(db, tx, ids[..|ids| - 1]) + [SweepStatement(db, tx, ids[|ids| - 1])]
  }

  function SweepScript(db: Db, tx: TxId, versions: set<VersionId>): seq<Statement> {
    [Begin(tx, db.now, false)] + SweepAll(db, tx, InOrder(AgentQueued(db.tasks, versions)))
    + SweepAll(db, tx, InOrder(AgentRunning(db.tasks, versions)))
  }

  // ---- a transaction on its own ----------------------------------------------------------------------------------------

  lemma Begins(db: Db, tx: TxId, claims: bool)
    ensures Built(db, tx, [Begin(tx, db.now, claims)], Opened(db.now, claims))
  {}

  lemma Goes(db: Db, tx: TxId, front: seq<Statement>, x: Tx, s: Statement)
    requires Built(db, tx, front, x) && Inner(s) && s.tx == tx && Takes(Alone(db.tasks, tx, x), s)
    ensures Built(db, tx, front + [s], TxAfter(Alone(db.tasks, tx, x), s))
  {
    ReplayedOn(db.tasks, front, tx, x, s);
  }

  /** A commit that writes nothing. */
  lemma CommitsNothing(db: Db, tx: TxId, own: seq<Statement>, x: Tx)
    requires Built(db, tx, own, x) && x.writes == map[] && x.inserts == map[]
    ensures ExecAll(Quiet(db), own + [Commit(tx)]) == Quiet(db)
  {
    ReplayedRuns(Quiet(db), own, tx);
    ExecSnoc(Quiet(db), own, Commit(tx));
  }

  /** A commit that writes one row. */
  lemma CommitsRow(db: Db, tx: TxId, own: seq<Statement>, x: Tx, id: TaskId, t: Task)
    requires Built(db, tx, own, x) && x.writes == map[id := t] && x.inserts == map[]
    ensures ExecAll(Quiet(db), own + [Commit(tx)]) == World(db.tasks[id := t], Holders(db.attempts), map[])
  {
    ReplayedRuns(Quiet(db), own, tx);
    ExecSnoc(Quiet(db), own, Commit(tx));
  }

  lemma NobodyElse(tx: TxId, x: Tx)
    ensures LockedElsewhere(map[tx := x], tx) == {}
  {}

  lemma FinishedHolders(attempts: map<AttemptKey, AttemptRow>, key: AttemptKey, outcome: Outcome, error: Option<string>, now: Time)
    ensures Holders(Finished(attempts, key, outcome, error, now)) == Holders(attempts)
  {}

  // ---- script by script -------------------------------------------------------------------------------------------------

  lemma EndScriptActs(db: Db, tx: TxId, id: TaskId, attempt: nat, worker: WorkerId, e: Ending)
    ensures Replayed(db.tasks, EndScript(db, tx, id, attempt, worker, e), tx).Some?
    ensures ExecAll(Quiet(db), EndScript(db, tx, id, attempt, worker, e) + [Commit(tx)]) == Quiet(Complete(db, id, attempt, worker, e).0)
  {
    var begin, x := [Begin(tx, db.now, false)], Opened(db.now, false);
    Begins(db, tx, false);
    CompleteMoves(db, id, attempt, worker, e);
    if Holds(db, id, attempt, worker) {
      var s := Update(tx, id, Fence(attempt, worker), Target(e), PatchOf(e));
      NobodyElse(tx, x);
      Goes(db, tx, begin, x, s);
      CommitsRow(db, tx, begin + [s], TxAfter(Alone(db.tasks, tx, x), s), id, EndedRow(db.tasks[id], e, db.now));
      FinishedHolders(db.attempts, AttemptKey(id, attempt), OutcomeOf(e), AttemptError(e), db.now);
    } else {
      assert begin + [] == begin;
      CommitsNothing(db, tx, begin, x);
    }
  }

  lemma RenewScriptActs(db: Db, tx: TxId, id: TaskId, attempt: nat, worker: WorkerId, ttl: nat)
    ensures Replayed(db.tasks, RenewScript(db, tx, id, attempt, worker, ttl), tx).Some?
    ensures ExecAll(Quiet(db), RenewScript(db, tx, id, attempt, worker, ttl) + [Commit(tx)]) == Quiet(Renew(db, id, attempt, worker, ttl).0)
  {
    var begin, x := [Begin(tx, db.now, false)], Opened(db.now, false);
    Begins(db, tx, false);
    if Renewable(db, id, attempt, worker) {
      var s := ExtendLease(tx, id, attempt, worker, ttl);
      NobodyElse(tx, x);
      Goes(db, tx, begin, x, s);
      CommitsRow(db, tx, begin + [s], TxAfter(Alone(db.tasks, tx, x), s), id, Renew(db, id, attempt, worker, ttl).0.tasks[id]);
    } else {
      assert begin + [] == begin;
      CommitsNothing(db, tx, begin, x);
    }
  }

  lemma RecoveryUpdateTakes(db: Db, tx: TxId, x: Tx, phase: Phase, id: TaskId)
    requires id in db.tasks && Overdue(db.tasks[id], phase, db.now)
    requires x == Opened(db.now, false).(locks := {id})
    ensures var s := RecoveryUpdate(tx, id, db.tasks[id], phase);
      && Takes(Alone(db.tasks, tx, x), s)
      && TxAfter(Alone(db.tasks, tx, x), s) == x.(writes := map[id := ReapedRow(db.tasks[id], phase, db.now)])
  {
    NobodyElse(tx, x);
    FenceMeansOverdue(db.tasks[id], phase, db.now);
    assert x.locks + {id} == x.locks;
  }

  lemma RecoveryScriptActs(db: Db, tx: TxId, phase: Phase, id: TaskId)
    ensures Replayed(db.tasks, RecoveryScript(db, tx, phase, id), tx).Some?
    ensures ExecAll(Quiet(db), RecoveryScript(db, tx, phase, id) + [Commit(tx)]) == Quiet(ReapOne(db, phase, id))
  {
    var begin, x := [Begin(tx, db.now, false)], Opened(db.now, false);
    Begins(db, tx, false);
    ReapOneShape(db, phase, id);
    if id in db.tasks && Overdue(db.tasks[id], phase, db.now) {
      var pick, s := PickDue(tx, phase, {id}), RecoveryUpdate(tx, id, db.tasks[id], phase);
      var y := x.(locks := {id});
      NobodyElse(tx, x);
      Goes(db, tx, begin, x, pick);
      assert x.locks + {id} == {id};
      RecoveryUpdateTakes(db, tx, y, phase, id);
      Goes(db, tx, begin + [pick], y, s);
      CommitsRow(db, tx, begin + [pick] + [s], TxAfter(Alone(db.tasks, tx, y), s), id, ReapedRow(db.tasks[id], phase, db.now));
      assert begin + [pick] + [s] == begin + ([pick] + [s]);
      RecoveredTables(db, phase, id);
    } else {
      assert begin + [] == begin;
      CommitsNothing(db, tx, begin, x);
    }
  }

  lemma RecoveredTables(db: Db, phase: Phase, id: TaskId)
    requires id in db.tasks && Overdue(db.tasks[id], phase, db.now)
    ensures Quiet(ReapOne(db, phase, id)) == World(db.tasks[id := ReapedRow(db.tasks[id], phase, db.now)], Holders(db.attempts), map[])
  {
    ReapOneShape(db, phase, id);
  }

  lemma CancelScriptActs(db: Db, tx: TxId, id: TaskId)
    ensures Replayed(db.tasks, CancelScript(db, tx, id), tx).Some?
    ensures ExecAll(Quiet(db), CancelScript(db, tx, id) + [Commit(tx)]) == Quiet(CancelTo(db, id).0)
  {
    var begin, x := [Begin(tx, db.now, false)], Opened(db.now, false);
    Begins(db, tx, false);
    CancelShape(db, id);
    if id !in db.tasks {
      assert begin + [] == begin;
      CommitsNothing(db, tx, begin, x);
    } else {
      NobodyElse(tx, x);
      Goes(db, tx, begin, x, LockRow(tx, id));
      assert x.locks + {id} == {id};
      CancelRest(db, tx, begin + [LockRow(tx, id)], x.(locks := {id}), id);
    }
  }

  /** What a cancellation does to the row it has locked. */
  lemma CancelRest(db: Db, tx: TxId, own: seq<Statement>, x: Tx, id: TaskId)
    requires id in db.tasks && own == [Begin(tx, db.now, false)] + [LockRow(tx, id)]
    requires x == Opened(db.now, false).(locks := {id}) && Built(db, tx, own, x)
    ensures Replayed(db.tasks, CancelScript(db, tx, id), tx).Some?
    ensures ExecAll(Quiet(db), CancelScript(db, tx, id) + [Commit(tx)]) == Quiet(CancelTo(db, id).0)
  {
    var t := db.tasks[id];
    CancelShape(db, id);
    NobodyElse(tx, x);
    assert x.locks + {id} == x.locks;
    if t.state == Queued {
      var s := Update(tx, id, Guard([Queued], None, None, false, false), Cancelled, CANCEL_PATCH);
      Goes(db, tx, own, x, s);
      CommitsRow(db, tx, own + [s], TxAfter(Alone(db.tasks, tx, x), s), id, CancelledRow(t, db.now));
      assert own + [s] == CancelScript(db, tx, id);
    } else if t.state == Running && !t.cancelRequested {
      Goes(db, tx, own, x, FlagRow(tx, id));
      CommitsRow(db, tx, own + [FlagRow(tx, id)], TxAfter(Alone(db.tasks, tx, x), FlagRow(tx, id)), id, t.(cancelRequested := true));
      assert own + [FlagRow(tx, id)] == CancelScript(db, tx, id);
    } else {
      assert own == CancelScript(db, tx, id);
      CommitsNothing(db, tx, own, x);
    }
  }

  /** The claim's transaction once it has granted. */
  function Claimed(db: Db, worker: WorkerId, ttl: nat, ids: set<TaskId>): Tx
    requires ids <= db.tasks.Keys
  {
    var g := Granted(ids, worker, ttl);
    Tx(db.now, Claimer(ids, Some(g)), ids, GrantedRows(db.tasks, g, db.now), GrantedAttempts(db.tasks, g))
  }

  lemma ClaimBuilt(db: Db, tx: TxId, worker: WorkerId, ttl: nat, ids: seq<TaskId>)
    requires Elements(ids) <= db.tasks.Keys && forall id <- ids :: Ready(db.tasks[id], db.now)
    ensures Built(db, tx, ClaimScript(db, tx, worker, ttl, ids), Claimed(db, worker, ttl, Elements(ids)))
  {
    var x, y := Opened(db.now, true), Tx(db.now, Claimer(Elements(ids), None), Elements(ids), map[], map[]);
    var begin, pick := [Begin(tx, db.now, true)], PickReady(tx, Elements(ids));
    Begins(db, tx, true);
    PicksAll(db, tx, x, Elements(ids));
    Goes(db, tx, begin, x, pick);
    GrantsAll(db, tx, y, Granted(Elements(ids), worker, ttl));
    Goes(db, tx, begin + [pick], y, GrantPicked(tx, Granted(Elements(ids), worker, ttl)));
  }

  lemma PicksAll(db: Db, tx: TxId, x: Tx, ids: set<TaskId>)
    requires x == Opened(db.now, true) && forall id <- ids :: id in db.tasks && Ready(db.tasks[id], db.now)
    ensures Takes(Alone(db.tasks, tx, x), PickReady(tx, ids))
    ensures TxAfter(Alone(db.tasks, tx, x), PickReady(tx, ids)) == Tx(db.now, Claimer(ids, None), ids, map[], map[])
  {
    NobodyElse(tx, x);
    assert {} + ids == ids;
  }

  lemma GrantsAll(db: Db, tx: TxId, y: Tx, g: Granted)
    requires g.ids <= db.tasks.Keys && y == Tx(db.now, Claimer(g.ids, None), g.ids, map[], map[])
    ensures Takes(Alone(db.tasks, tx, y), GrantPicked(tx, g))
    ensures TxAfter(Alone(db.tasks, tx, y), GrantPicked(tx, g)) == Claimed(db, g.worker, g.ttl, g.ids)
  {
    assert g.ids + g.ids == g.ids;
  }

  // ---- the agent sweep ---------------------------------------------------------------------------------------------------

  function SweptRow(db: Db, id: TaskId): Task
    requires id in db.tasks
  {
    if db.tasks[id].state == Queued then Patched(db.tasks[id], Cancelled, AGENT_PATCH, db.now)
    else db.tasks[id].(cancelRequested := true)
  }

  /** The sweep's transaction once it has written these rows. */
  function Sweeping(db: Db, ids: set<TaskId>): Tx
    requires ids <= db.tasks.Keys
  {
    Opened(db.now, false).(locks := ids, writes := map id | id in ids :: SweptRow(db, id))
  }

  lemma SweepsOne(db: Db, tx: TxId, done: set<TaskId>, id: TaskId)
    requires done <= db.tasks.Keys && id in db.tasks && id !in done
    ensures var s, x := SweepStatement(db, tx, id), Sweeping(db, done);
      Takes(Alone(db.tasks, tx, x), s) && TxAfter(Alone(db.tasks, tx, x), s) == Sweeping(db, done + {id})
  {
    NobodyElse(tx, Sweeping(db, done));
    assert Sweeping(db, done).writes[id := SweptRow(db, id)] == Sweeping(db, done + {id}).writes;
  }

  lemma SweepsNext(db: Db, tx: TxId, own: seq<Statement>, done: set<TaskId>, id: TaskId)
    requires done <= db.tasks.Keys && id in db.tasks && id !in done && Built(db, tx, own, Sweeping(db, done))
    ensures Built(db, tx, own + [SweepStatement(db, tx, id)], Sweeping(db, done + {id}))
  {
    SweepsOne(db, tx, done, id);
    Goes(db, tx, own, Sweeping(db, done), SweepStatement(db, tx, id));
  }

  lemma OneMoreId(done: set<TaskId>, front: seq<TaskId>, last: TaskId)
    ensures done + Elements(front) + {last} == done + Elements(front + [last])
  {}

  /** The rows of a list, after those already swept. */
  lemma {:induction false} SweepsAll(db: Db, tx: TxId, own: seq<Statement>, done: set<TaskId>, ids: seq<TaskId>)
    requires done <= db.tasks.Keys && Built(db, tx, own, Sweeping(db, done))
    requires Distinct(ids) && forall id <- ids :: id in db.tasks && id !in done
    ensures done + Elements(ids) <= db.tasks.Keys
    ensures Built(db, tx, own + SweepAll(db, tx, ids), Sweeping(db, done + Elements(ids)))
  {
    if ids == [] {
      assert own + SweepAll(db, tx, ids) == own && done + Elements(ids) == done;
    } else {
      var front, last := ids[..|ids| - 1], ids[|ids| - 1];
      FrontAndLast(ids);
      SweepsAll(db, tx, own, done, front);
      SweepsNext(db, tx, own + SweepAll(db, tx, front), done + Elements(front), last);
      assert own + SweepAll(db, tx, front) + [SweepStatement(db, tx, last)] == own + SweepAll(db, tx, ids);
      OneMoreId(done, front, last);
    }
  }

  lemma SweepBegins(db: Db, tx: TxId)
    ensures Built(db, tx, [Begin(tx, db.now, false)], Sweeping(db, {}))
  {
    Begins(db, tx, false);
    assert Sweeping(db, {}).writes == map[];
  }

  /** Two lists are swept, one after the other. */
  lemma SweepsBoth(db: Db, tx: TxId, a: seq<TaskId>, b: seq<TaskId>)
    requires Distinct(a) && Distinct(b) && Elements(a) !! Elements(b) && Elements(a) + Elements(b) <= db.tasks.Keys
    ensures Built(db, tx, [Begin(tx, db.now, false)] + SweepAll(db, tx, a) + SweepAll(db, tx, b),
                  Sweeping(db, Elements(a) + Elements(b)))
  {
    SweepBegins(db, tx);
    assert forall id <- a :: id in Elements(a);
    assert forall id <- b :: id in Elements(b);
    SweepsAll(db, tx, [Begin(tx, db.now, false)], {}, a);
    assert {} + Elements(a) == Elements(a);
    SweepsAll(db, tx, [Begin(tx, db.now, false)] + SweepAll(db, tx, a), Elements(a), b);
  }

  lemma SweepWrites(db: Db, tx: TxId, versions: set<VersionId>)
    ensures var ids := AgentQueued(db.tasks, versions) + AgentRunning(db.tasks, versions);
      ids <= db.tasks.Keys && Built(db, tx, SweepScript(db, tx, versions), Sweeping(db, ids))
  {
    var queued, running := AgentQueued(db.tasks, versions), AgentRunning(db.tasks, versions);
    ElementsInOrder(queued);
    ElementsInOrder(running);
    QueuedOrRunning(db.tasks, versions);
    SweepsBoth(db, tx, InOrder(queued), InOrder(running));
  }

  lemma ElementsInOrder(ids: set<TaskId>)
    ensures Elements(InOrder(ids)) == ids && Distinct(InOrder(ids))
  {
    InOrderFacts(ids);
  }

  lemma QueuedOrRunning(tasks: map<TaskId, Task>, versions: set<VersionId>)
    ensures AgentQueued(tasks, versions) !! AgentRunning(tasks, versions)
    ensures AgentQueued(tasks, versions) + AgentRunning(tasks, versions) <= tasks.Keys
  {}

  lemma SweptRowIs(db: Db, versions: set<VersionId>, id: TaskId)
    requires id in db.tasks
    ensures id in CancelAgentTo(db, versions).tasks
    ensures CancelAgentTo(db, versions).tasks[id] ==
            if id in AgentQueued(db.tasks, versions) + AgentRunning(db.tasks, versions) then SweptRow(db, id) else db.tasks[id]
  {
    AgentSweepMoves(db, versions);
  }

  lemma SweptKeys(db: Db, versions: set<VersionId>)
    ensures CancelAgentTo(db, versions).tasks.Keys == db.tasks.Keys
  {
    AgentSweepMoves(db, versions);
  }

  lemma Merged(tasks: map<TaskId, Task>, writes: map<TaskId, Task>, after: map<TaskId, Task>)
    requires writes.Keys <= tasks.Keys == after.Keys
    requires forall id <- tasks :: after[id] == if id in writes then writes[id] else tasks[id]
    ensures after == tasks + writes
  {}

  lemma SweptTables(db: Db, versions: set<VersionId>, ids: set<TaskId>)
    requires ids == AgentQueued(db.tasks, versions) + AgentRunning(db.tasks, versions) && ids <= db.tasks.Keys
    ensures CancelAgentTo(db, versions).tasks == db.tasks + Sweeping(db, ids).writes
  {
    var after, writes := CancelAgentTo(db, versions).tasks, Sweeping(db, ids).writes;
    SweptKeys(db, versions);
    forall id | id in db.tasks ensures after[id] == if id in writes then writes[id] else db.tasks[id] {
      SweptRowIs(db, versions, id);
    }
    Merged(db.tasks, writes, after);
  }

  lemma SweepScriptActs(db: Db, tx: TxId, versions: set<VersionId>)
    ensures Replayed(db.tasks, SweepScript(db, tx, versions), tx).Some?
    ensures ExecAll(Quiet(db), SweepScript(db, tx, versions) + [Commit(tx)]) == Quiet(CancelAgentTo(db, versions))
  {
    var ids := AgentQueued(db.tasks, versions) + AgentRunning(db.tasks, versions);
    SweepWrites(db, tx, versions);
    CommitsRows(db, tx, SweepScript(db, tx, versions), Sweeping(db, ids));
    SweptTables(db, versions, ids);
    SweepAttempts(db, versions);
  }

  lemma CommitsRows(db: Db, tx: TxId, own: seq<Statement>, x: Tx)
    requires Built(db, tx, own, x) && x.inserts == map[]
    ensures ExecAll(Quiet(db), own + [Commit(tx)]) == World(db.tasks + x.writes, Holders(db.attempts), map[])
  {
    ReplayedRuns(Quiet(db), own, tx);
    ExecSnoc(Quiet(db), own, Commit(tx));
  }

  // ---- every script is its step ------------------------------------------------------------------------------------------

  /** The steps that are transactions of their own and no claims. */
  predicate Writes(s: Step) {
    s.Finishing? || s.HandBack? || s.Renewal? || s.Recovery? || s.Cancellation? || s.AgentSweep?
  }

  function Script(db: Db, tx: TxId, s: Step): seq<Statement>
    requires Writes(s)
  {
    match s
    case Renewal(id, attempt, worker, ttl) => RenewScript(db, tx, id, attempt, worker, ttl)
    case Recovery(phase, id) => RecoveryScript(db, tx, phase, id)
    case Cancellation(id) => CancelScript(db, tx, id)
    case AgentSweep(versions) => SweepScript(db, tx, versions)
    case Finishing(id, attempt, worker, _, _, _, _) => EndScript(db, tx, id, attempt, worker, EndingOf(db, s))
    case HandBack(id, attempt, worker, reason) => EndScript(db, tx, id, attempt, worker, Abandon(reason))
  }

  lemma EndStepActs(db: Db, tx: TxId, s: Step)
    requires s.Finishing? || s.HandBack?
    ensures Replayed(db.tasks, Script(db, tx, s), tx).Some?
    ensures ExecAll(Quiet(db), Script(db, tx, s) + [Commit(tx)]) == Quiet(Apply(db, s))
  {
    EndScriptActs(db, tx, s.id, s.attempt, s.worker, EndingOf(db, s));
  }

  lemma RecoveryStepActs(db: Db, tx: TxId, s: Step)
    requires s.Recovery? || s.Renewal?
    ensures Replayed(db.tasks, Script(db, tx, s), tx).Some?
    ensures ExecAll(Quiet(db), Script(db, tx, s) + [Commit(tx)]) == Quiet(Apply(db, s))
  {
    if s.Recovery? {
      RecoveryScriptActs(db, tx, s.phase, s.id);
    } else {
      RenewScriptActs(db, tx, s.id, s.attempt, s.worker, s.ttl);
    }
  }

  lemma CancelStepActs(db: Db, tx: TxId, s: Step)
    requires s.Cancellation? || s.AgentSweep?
    ensures Replayed(db.tasks, Script(db, tx, s), tx).Some?
    ensures ExecAll(Quiet(db), Script(db, tx, s) + [Commit(tx)]) == Quiet(Apply(db, s))
  {
    if s.Cancellation? {
      CancelScriptActs(db, tx, s.id);
    } else {
      SweepScriptActs(db, tx, s.versions);
    }
  }

  /** Alone, the statements of a transaction and its commit do to the tables what the step does. */
  lemma ScriptActs(db: Db, tx: TxId, s: Step)
    requires Writes(s)
    ensures Replayed(db.tasks, Script(db, tx, s), tx).Some?
    ensures ExecAll(Quiet(db), Script(db, tx, s) + [Commit(tx)]) == Quiet(Apply(db, s))
  {
    if s.Finishing? || s.HandBack? {
      EndStepActs(db, tx, s);
    } else if s.Recovery? || s.Renewal? {
      RecoveryStepActs(db, tx, s);
    } else {
      CancelStepActs(db, tx, s);
    }
  }
}
