/** The claim at statement level: open transactions, row locks, and writes nobody else sees yet. The
    granting UPDATE tests nothing but ids; what makes it safe are the locks its SELECTs took. */
module Locking {
  import opened Wrappers
  import opened Orders
  import opened States
  import opened Tables
  import opened Transitions
  import opened Claim
  import opened Rounds
  import opened Grants
  import opened Reap

  type TxId = nat

  datatype Granted = Granted(ids: set<TaskId>, worker: WorkerId, ttl: nat)

  // A claim picks rows with FOR UPDATE SKIP LOCKED and then grants once. Every other transaction
  // (completion, renewal, recovery, cancellation) locks rows and updates them under a guard.
  datatype Role = Claimer(picked: set<TaskId>, granted: Option<Granted>) | Writer

  datatype Tx = Tx(now: Time, role: Role, locks: set<TaskId>, writes: map<TaskId, Task>, inserts: map<AttemptKey, WorkerId>)

  // `tasks` and `attempts` are what is committed.
  datatype World = World(tasks: map<TaskId, Task>, attempts: map<AttemptKey, WorkerId>, open: map<TxId, Tx>)

  datatype Statement =
    | Submit(id: TaskId, row: Task)
    | Begin(tx: TxId, now: Time, claims: bool)
    | PickReady(tx: TxId, ids: set<TaskId>)
    | PickDue(tx: TxId, phase: Phase, ids: set<TaskId>)
    | LockRow(tx: TxId, id: TaskId)
    | Update(tx: TxId, id: TaskId, g: Guard, to: State, patch: Patch)
    | ExtendLease(tx: TxId, id: TaskId, attempt: nat, worker: WorkerId, ttl: nat)
    | FlagRow(tx: TxId, id: TaskId)
    | GrantPicked(tx: TxId, grant: Granted)
    | Commit(tx: TxId)
    | Rollback(tx: TxId)

  function LockedElsewhere(open: map<TxId, Tx>, tx: TxId): set<TaskId> {
    set other, id | other in open && other != tx && id in open[other].locks :: id
  }

  /** The version of a row a transaction's next statement sees. */
  function View(tasks: map<TaskId, Task>, x: Tx, id: TaskId): Task
    requires id in tasks
  {
    if id in x.writes then x.writes[id] else tasks[id]
  }

  function GrantedRows(tasks: map<TaskId, Task>, g: Granted, now: Time): map<TaskId, Task>
    requires g.ids <= tasks.Keys
  {
    map id | id in g.ids :: GrantedRow(tasks[id], g.worker, g.ttl, now)
  }

  function GrantedKeys(tasks: map<TaskId, Task>, ids: set<TaskId>): set<AttemptKey>
    requires ids <= tasks.Keys
  {
    set id | id in ids :: AttemptKey(id, tasks[id].attempt + 1)
  }

  function GrantedAttempts(tasks: map<TaskId, Task>, g: Granted): map<AttemptKey, WorkerId>
    requires g.ids <= tasks.Keys
  {
    map key | key in GrantedKeys(tasks, g.ids) :: g.worker
  }

  /** Whether a statement can run now. SKIP LOCKED takes rows nobody else holds and re-checks its
      condition on their latest version; FOR UPDATE and UPDATE wait until nobody else holds the row.
      No guarded update in the program asks for RUNNING. */
  predicate Enabled(w: World, s: Statement) {
    match s
    case Submit(id, row) => id !in w.tasks && row.state == Queued && row.attempt == 0
    case Begin(tx, now, claims) => tx !in w.open
    case PickReady(tx, ids) =>
      && tx in w.open && w.open[tx].role.Claimer? && w.open[tx].role.granted.None?
      && ids !! LockedElsewhere(w.open, tx)
      && forall id <- ids :: id in w.tasks && Ready(w.tasks[id], w.open[tx].now)
    case PickDue(tx, phase, ids) =>
      && tx in w.open && w.open[tx].role.Writer?
      && ids !! LockedElsewhere(w.open, tx)
      && forall id <- ids :: id in w.tasks && Overdue(View(w.tasks, w.open[tx], id), phase, w.open[tx].now)
    case LockRow(tx, id) => Writable(w, tx, id)
    case Update(tx, id, g, to, patch) => Writable(w, tx, id) && to != Running
    case ExtendLease(tx, id, attempt, worker, ttl) => Writable(w, tx, id)
    case FlagRow(tx, id) => Writable(w, tx, id)
    case GrantPicked(tx, g) =>
      && tx in w.open && w.open[tx].role.Claimer? && w.open[tx].role.granted.None?
      && g.ids <= w.open[tx].role.picked && g.ids <= w.tasks.Keys
    case Commit(tx) => tx in w.open
    case Rollback(tx) => tx in w.open
  }

  predicate Writable(w: World, tx: TxId, id: TaskId) {
    tx in w.open && w.open[tx].role.Writer? && id in w.tasks && id !in LockedElsewhere(w.open, tx)
  }

  function Written(x: Tx, id: TaskId, t: Task): Tx {
    x.(locks := x.locks + {id}, writes := x.writes[id := t])
  }

  predicate Live(t: Task, attempt: nat, worker: WorkerId, now: Time) {
    t.state == Running && t.attempt == attempt && t.leaseWorker == Some(worker) && t.leaseExpiresAt.Some? && t.leaseExpiresAt.value > now
  }

  /** Whether the WHERE clause of an update meets this version of the row. */
  predicate Accepts(t: Task, s: Statement, now: Time) {
    match s
    case Update(_, _, g, to, _) => LegalFrom(g.anchor, to) && Matches(t, g, now)
    case ExtendLease(_, _, attempt, worker, _) => Live(t, attempt, worker, now)
    case _ => true
  }

  /** A statement inside a transaction. */
  predicate Inner(s: Statement) {
    !s.Submit? && !s.Begin? && !s.Commit? && !s.Rollback?
  }

  /** The transaction after one of its own statements. */
  function TxAfter(w: World, s: Statement): Tx
    requires Enabled(w, s) && Inner(s)
  {
    var x := w.open[s.tx];
    match s
    case PickReady(tx, ids) => x.(locks := x.locks + ids, role := Claimer(x.role.picked + ids, None))
    case PickDue(tx, phase, ids) => x.(locks := x.locks + ids)
    case LockRow(tx, id) => x.(locks := x.locks + {id})
    case Update(tx, id, g, to, patch) =>
      var t := View(w.tasks, x, id);
      if Accepts(t, s, x.now) then Written(x, id, Patched(t, to, patch, x.now)) else x
    case ExtendLease(tx, id, attempt, worker, ttl) =>
      var t := View(w.tasks, x, id);
      if Accepts(t, s, x.now) then Written(x, id, t.(leaseExpiresAt := Some(x.now + Seconds(ttl)))) else x
    case FlagRow(tx, id) => Written(x, id, View(w.tasks, x, id).(cancelRequested := true))
    case GrantPicked(tx, g) =>
      x.(role := Claimer(x.role.picked, Some(g)), locks := x.locks + g.ids,
         writes := GrantedRows(w.tasks, g, x.now), inserts := GrantedAttempts(w.tasks, g))
  }

  function Opened(now: Time, claims: bool): Tx {
    Tx(now, if claims then Claimer({}, None) else Writer, {}, map[], map[])
  }

  /** One statement; a statement that has to wait changes nothing. */
  function Exec(w: World, s: Statement): World {
    if !Enabled(w, s) then w
    else match s
      case Submit(id, row) => w.(tasks := w.tasks[id := row])
      case Begin(tx, now, claims) => w.(open := w.open[tx := Opened(now, claims)])
      case Commit(tx) =>
        var x := w.open[tx];
        World(w.tasks + x.writes, w.attempts + x.inserts, w.open - {tx})
      case Rollback(tx) => w.(open := w.open - {tx})
      case _ => w.(open := w.open[s.tx := TxAfter(w, s)])
  }

  function ExecAll(w: World, statements: seq<Statement>): World {
    if statements == [] then w else Exec(ExecAll(w, statements[..|statements| - 1]), statements[|statements| - 1])
  }

  const NOTHING: World := World(map[], map[], map[])

  // ---- the invariant --------------------------------------------------------------------------------------

  /** What one open transaction relies on: its locks cover its writes, a claim's picked rows are still
      QUEUED, and its pending grant is still the grant of the committed rows. */
  ghost predicate TxOk(tasks: map<TaskId, Task>, x: Tx) {
    && x.writes.Keys <= x.locks <= tasks.Keys
    && (forall id <- x.writes :: x.writes[id].attempt >= tasks[id].attempt)
    && (x.role.Writer? ==> x.inserts == map[])
    && (x.role.Claimer? ==>
          && x.role.picked <= x.locks
          && (forall id <- x.role.picked :: tasks[id].state == Queued)
          && (x.role.granted.None? ==> x.writes == map[] && x.inserts == map[])
          && (x.role.granted.Some? ==> GrantOk(tasks, x, x.role.granted.value)))
  }

  ghost predicate GrantOk(tasks: map<TaskId, Task>, x: Tx, g: Granted)
    requires x.role.Claimer?
  {
    && g.ids <= x.role.picked && g.ids <= tasks.Keys
    && x.writes == GrantedRows(tasks, g, x.now) && x.inserts == GrantedAttempts(tasks, g)
  }

  ghost predicate Disjoint(open: map<TxId, Tx>) {
    forall a, b | a in open && b in open && a != b :: open[a].locks !! open[b].locks
  }

  ghost predicate AttemptsOk(tasks: map<TaskId, Task>, attempts: map<AttemptKey, WorkerId>) {
    forall key <- attempts :: key.task in tasks && key.attempt <= tasks[key.task].attempt
  }

  ghost predicate Safe(w: World) {
    && Disjoint(w.open)
    && (forall tx <- w.open :: TxOk(w.tasks, w.open[tx]))
    && AttemptsOk(w.tasks, w.attempts)
  }

  lemma DisjointAfter(open: map<TxId, Tx>, tx: TxId, x: Tx)
    requires Disjoint(open) && x.locks !! LockedElsewhere(open, tx)
    ensures Disjoint(open[tx := x])
  {
    forall other | other in open && other != tx ensures open[other].locks !! x.locks {
      forall id | id in open[other].locks ensures id in LockedElsewhere(open, tx) {}
    }
  }

  lemma OwnLocks(open: map<TxId, Tx>, tx: TxId)
    requires Disjoint(open) && tx in open
    ensures open[tx].locks !! LockedElsewhere(open, tx)
  {}

  /** The grant's pending rows: of the committed ones, under locks the claim already holds. */
  lemma GrantPickedOk(w: World, tx: TxId, g: Granted)
    requires Safe(w) && Enabled(w, GrantPicked(tx, g))
    ensures TxOk(w.tasks, TxAfter(w, GrantPicked(tx, g))) && TxAfter(w, GrantPicked(tx, g)).locks == w.open[tx].locks
  {
    var x := w.open[tx];
    assert TxOk(w.tasks, x);
    assert x.locks + g.ids == x.locks;
  }

  lemma OwnStatementOk(w: World, s: Statement)
    requires Safe(w) && Enabled(w, s) && Inner(s)
    ensures TxOk(w.tasks, TxAfter(w, s)) && TxAfter(w, s).locks !! LockedElsewhere(w.open, s.tx)
  {
    assert TxOk(w.tasks, w.open[s.tx]);
    OwnLocks(w.open, s.tx);
    if s.GrantPicked? { GrantPickedOk(w, s.tx, s.grant); }
  }

  /** A commit changes only rows its transaction holds, so nobody else's view moves. */
  lemma OthersOk(tasks: map<TaskId, Task>, after: map<TaskId, Task>, x: Tx)
    requires TxOk(tasks, x) && tasks.Keys <= after.Keys
    requires forall id <- x.locks :: after[id] == tasks[id]
    ensures TxOk(after, x)
  {
    if x.role.Claimer? && x.role.granted.Some? {
      var g := x.role.granted.value;
      assert g.ids <= x.locks;
      assert GrantedRows(after, g, x.now) == GrantedRows(tasks, g, x.now);
      assert GrantedKeys(after, g.ids) == GrantedKeys(tasks, g.ids);
      assert GrantedAttempts(after, g) == GrantedAttempts(tasks, g);
    }
  }

  lemma CommitSafe(w: World, tx: TxId)
    requires Safe(w) && tx in w.open
    ensures Safe(Exec(w, Commit(tx)))
  {
    var x, after := w.open[tx], Exec(w, Commit(tx));
    assert TxOk(w.tasks, x);
    forall other | other in after.open ensures TxOk(after.tasks, after.open[other]) {
      assert TxOk(w.tasks, w.open[other]) && w.open[other].locks !! x.locks;
      OthersOk(w.tasks, after.tasks, w.open[other]);
    }
    forall key | key in after.attempts ensures key.task in after.tasks && key.attempt <= after.tasks[key.task].attempt {
      if key in x.inserts {
        assert key in GrantedKeys(w.tasks, x.role.granted.value.ids);
      }
    }
  }

  lemma SubmitSafe(w: World, id: TaskId, row: Task)
    requires Safe(w) && id !in w.tasks
    ensures Safe(w.(tasks := w.tasks[id := row]))
  {
    forall tx | tx in w.open ensures TxOk(w.tasks[id := row], w.open[tx]) {
      OthersOk(w.tasks, w.tasks[id := row], w.open[tx]);
    }
  }

  /** Every interleaving keeps the lock sets disjoint and what each transaction relies on. */
  lemma StatementSafe(w: World, s: Statement)
    requires Safe(w)
    ensures Safe(Exec(w, s))
  {
    if Enabled(w, s) {
      match s
      case Submit(id, row) => SubmitSafe(w, id, row);
      case Commit(tx) => CommitSafe(w, tx);
      case Begin(_, _, _) =>
      case Rollback(_) =>
      case _ => {
        OwnStatementOk(w, s);
        DisjointAfter(w.open, s.tx, TxAfter(w, s));
      }
    }
  }

  lemma {:induction false} RunSafe(w: World, statements: seq<Statement>)
    requires Safe(w)
    ensures Safe(ExecAll(w, statements))
  {
    if statements == [] {
    } else {
      RunSafe(w, statements[..|statements| - 1]);
      StatementSafe(ExecAll(w, statements[..|statements| - 1]), statements[|statements| - 1]);
    }
  }

  // ---- what it buys ----------------------------------------------------------------------------------------

  /** However claims, recoveries, completions and cancellations interleave, no two open transactions
      hold the same row; and the granting UPDATE, which asks for nothing but ids, meets only committed
      QUEUED rows that no other transaction holds, and attempt numbers that are neither taken nor about
      to be. */
  lemma GrantHitsOnlyQueued(statements: seq<Statement>, tx: TxId, g: Granted)
    requires Enabled(ExecAll(NOTHING, statements), GrantPicked(tx, g))
    ensures var w := ExecAll(NOTHING, statements);
      && Disjoint(w.open)
      && forall id <- g.ids ::
           && id in w.tasks && w.tasks[id].state == Queued && View(w.tasks, w.open[tx], id) == w.tasks[id]
           && id !in LockedElsewhere(w.open, tx)
           && AttemptKey(id, w.tasks[id].attempt + 1) !in w.attempts
           && forall other <- w.open :: AttemptKey(id, w.tasks[id].attempt + 1) !in w.open[other].inserts
  {
    RunSafe(NOTHING, statements);
    var w := ExecAll(NOTHING, statements);
    assert TxOk(w.tasks, w.open[tx]);
    OwnLocks(w.open, tx);
    forall id, other | id in g.ids && other in w.open
      ensures AttemptKey(id, w.tasks[id].attempt + 1) !in w.open[other].inserts
    {
      assert TxOk(w.tasks, w.open[other]);
      PendingTasks(w.tasks, w.open[other], AttemptKey(id, w.tasks[id].attempt + 1));
      if other != tx { assert id !in w.open[other].locks; }
    }
  }

  lemma PendingTasks(tasks: map<TaskId, Task>, x: Tx, key: AttemptKey)
    requires TxOk(tasks, x)
    ensures key in x.inserts ==> key.task in x.locks && key.task in tasks && key.attempt == tasks[key.task].attempt + 1
  {}

  lemma {:induction false} AttemptsKept(w: World, statements: seq<Statement>)
    requires Safe(w)
    ensures forall key <- w.attempts ::
              key in ExecAll(w, statements).attempts && ExecAll(w, statements).attempts[key] == w.attempts[key]
  {
    if statements == [] {
    } else {
      var before := ExecAll(w, statements[..|statements| - 1]);
      AttemptsKept(w, statements[..|statements| - 1]);
      RunSafe(w, statements[..|statements| - 1]);
      CommitAddsFreshAttempts(before, statements[|statements| - 1]);
    }
  }

  lemma CommitAddsFreshAttempts(w: World, s: Statement)
    requires Safe(w)
    ensures s.Commit? && s.tx in w.open ==> w.open[s.tx].inserts.Keys !! w.attempts.Keys
    ensures forall key <- w.attempts :: key in Exec(w, s).attempts && Exec(w, s).attempts[key] == w.attempts[key]
  {
    if s.Commit? && s.tx in w.open {
      assert TxOk(w.tasks, w.open[s.tx]);
      forall key | key in w.open[s.tx].inserts ensures key !in w.attempts {
        PendingTasks(w.tasks, w.open[s.tx], key);
      }
    }
  }

  /** No (task, attempt) is ever granted to two workers: an attempt committed to a worker keeps it under
      every further interleaving, the primary key of task_attempts never refuses a commit, and no two
      open transactions are about to insert the same attempt. */
  lemma NeverGrantedTwice(early: seq<Statement>, late: seq<Statement>, a: TxId, b: TxId)
    ensures var w := ExecAll(NOTHING, early); var v := ExecAll(w, late);
      && (forall key <- w.attempts :: key in v.attempts && v.attempts[key] == w.attempts[key])
      && (a in v.open ==> v.open[a].inserts.Keys !! v.attempts.Keys)
      && (a in v.open && b in v.open && a != b ==> v.open[a].inserts.Keys !! v.open[b].inserts.Keys)
  {
    RunSafe(NOTHING, early);
    var w := ExecAll(NOTHING, early);
    AttemptsKept(w, late);
    RunSafe(w, late);
    var v := ExecAll(w, late);
    if a in v.open { CommitAddsFreshAttempts(v, Commit(a)); }
    if a in v.open && b in v.open && a != b { PendingDisjoint(v, a, b); }
  }

  lemma PendingDisjoint(w: World, a: TxId, b: TxId)
    requires Safe(w) && a in w.open && b in w.open && a != b
    ensures w.open[a].inserts.Keys !! w.open[b].inserts.Keys
  {
    assert TxOk(w.tasks, w.open[a]) && TxOk(w.tasks, w.open[b]) && w.open[a].locks !! w.open[b].locks;
    forall key | key in w.open[a].inserts ensures key !in w.open[b].inserts {
      PendingTasks(w.tasks, w.open[a], key);
      PendingTasks(w.tasks, w.open[b], key);
    }
  }

  /** The atomic grant of a list of ids, as one merge of rows. */
  lemma GrantAllRows(db: Db, order: seq<TaskId>, g: Granted)
    requires Distinct(order) && g.ids <= db.tasks.Keys && forall id :: id in order <==> id in g.ids
    ensures GrantAll(db, order, g.worker, g.ttl).tasks == db.tasks + GrantedRows(db.tasks, g, db.now)
  {
    assert forall id <- order :: id in db.tasks;
    GrantAllEffect(db, order, g.worker, g.ttl);
    var after := GrantAll(db, order, g.worker, g.ttl).tasks;
    assert after.Keys == (db.tasks + GrantedRows(db.tasks, g, db.now)).Keys;
  }

  /** Who holds each attempt. */
  function Holders(attempts: map<AttemptKey, AttemptRow>): map<AttemptKey, WorkerId> {
    map key | key in attempts :: attempts[key].worker
  }

  /** Who holds an attempt after the atomic grant. */
  predicate HeldAfter(db: Db, order: seq<TaskId>, worker: WorkerId, key: AttemptKey, holder: WorkerId) {
    if key.task in order && key.task in db.tasks && key.attempt == db.tasks[key.task].attempt + 1 then holder == worker
    else key in db.attempts && holder == db.attempts[key].worker
  }

  lemma {:induction false} GrantHolder(db: Db, order: seq<TaskId>, worker: WorkerId, ttl: nat, key: AttemptKey)
    requires Distinct(order) && (forall id <- order :: id in db.tasks) && key in GrantAll(db, order, worker, ttl).attempts
    ensures HeldAfter(db, order, worker, key, GrantAll(db, order, worker, ttl).attempts[key].worker)
  {
    if order == [] {
    } else {
      var front, last := order[..|order| - 1], order[|order| - 1];
      FrontAndLast(order);
      GrantStep(db, order, |front|, worker, ttl);
      assert order[..|front| + 1] == order;
      if key != AttemptKey(last, db.tasks[last].attempt + 1) {
        GrantHolder(db, front, worker, ttl, key);
      }
    }
  }

  lemma MergedAttempts(db: Db, order: seq<TaskId>, g: Granted, after: map<AttemptKey, WorkerId>)
    requires g.ids <= db.tasks.Keys && forall id :: id in order <==> id in g.ids
    requires forall key :: key in after <==> key in db.attempts || (key.task in order && key.attempt == db.tasks[key.task].attempt + 1)
    requires forall key <- after :: HeldAfter(db, order, g.worker, key, after[key])
    ensures after == Holders(db.attempts) + GrantedAttempts(db.tasks, g)
  {
    forall key ensures key in GrantedKeys(db.tasks, g.ids) <==> key.task in order && key.attempt == db.tasks[key.task].attempt + 1 {
      if key.task in order && key.attempt == db.tasks[key.task].attempt + 1 {
        assert key == AttemptKey(key.task, db.tasks[key.task].attempt + 1);
      }
    }
  }

  lemma GrantAllAttempts(db: Db, order: seq<TaskId>, g: Granted)
    requires Distinct(order) && g.ids <= db.tasks.Keys && forall id :: id in order <==> id in g.ids
    ensures Holders(GrantAll(db, order, g.worker, g.ttl).attempts) == Holders(db.attempts) + GrantedAttempts(db.tasks, g)
  {
    assert forall id <- order :: id in db.tasks;
    GrantAllEffect(db, order, g.worker, g.ttl);
    var after := GrantAll(db, order, g.worker, g.ttl).attempts;
    forall key | key in after ensures HeldAfter(db, order, g.worker, key, Holders(after)[key]) {
      GrantHolder(db, order, g.worker, g.ttl, key);
    }
    MergedAttempts(db, order, g, Holders(after));
  }

  /** What committing a claim does to the tables. */
  lemma CommitMerges(w: World, tx: TxId)
    requires Safe(w) && tx in w.open && w.open[tx].role.Claimer? && w.open[tx].role.granted.Some?
    ensures var x := w.open[tx]; var g := x.role.granted.value;
      && g.ids <= w.tasks.Keys && (forall id <- g.ids :: w.tasks[id].state == Queued)
      && Exec(w, Commit(tx)).tasks == w.tasks + GrantedRows(w.tasks, g, x.now)
      && Exec(w, Commit(tx)).attempts == w.attempts + GrantedAttempts(w.tasks, g)
  {
    assert TxOk(w.tasks, w.open[tx]);
  }

  lemma CommitWritesGrant(w: World, tx: TxId, order: seq<TaskId>, db: Db)
    requires Safe(w) && tx in w.open && w.open[tx].role.Claimer? && w.open[tx].role.granted.Some?
    requires db.tasks == w.tasks && db.now == w.open[tx].now
    requires Distinct(order) && forall id :: id in order <==> id in w.open[tx].role.granted.value.ids
    ensures var g := w.open[tx].role.granted.value;
      && (forall id <- order :: id in w.tasks && w.tasks[id].state == Queued)
      && Exec(w, Commit(tx)).tasks == GrantAll(db, order, g.worker, g.ttl).tasks
  {
    CommitMerges(w, tx);
    GrantAllRows(db, order, w.open[tx].role.granted.value);
  }

  lemma CommitWritesAttempts(w: World, tx: TxId, order: seq<TaskId>, db: Db)
    requires Safe(w) && tx in w.open && w.open[tx].role.Claimer? && w.open[tx].role.granted.Some?
    requires db.tasks == w.tasks && Holders(db.attempts) == w.attempts
    requires Distinct(order) && forall id :: id in order <==> id in w.open[tx].role.granted.value.ids
    ensures var g := w.open[tx].role.granted.value;
      Exec(w, Commit(tx)).attempts == Holders(GrantAll(db, order, g.worker, g.ttl).attempts)
  {
    CommitMerges(w, tx);
    GrantAllAttempts(db, order, w.open[tx].role.granted.value);
  }

  /** A claim takes effect at its commit: whatever other transactions did between its statements,
      committing writes exactly the task rows and the attempt rows that the atomic grant of its ids writes
      into the tables as they are at that moment. */
  lemma CommitIsAtomicGrant(statements: seq<Statement>, tx: TxId, order: seq<TaskId>, db: Db)
    requires var w := ExecAll(NOTHING, statements);
      && tx in w.open && w.open[tx].role.Claimer? && w.open[tx].role.granted.Some?
      && db.tasks == w.tasks && db.now == w.open[tx].now && Holders(db.attempts) == w.attempts
      && Distinct(order) && forall id :: id in order <==> id in w.open[tx].role.granted.value.ids
    ensures var w := ExecAll(NOTHING, statements); var g := w.open[tx].role.granted.value;
      && (forall id <- order :: id in w.tasks && w.tasks[id].state == Queued)
      && Exec(w, Commit(tx)).tasks == GrantAll(db, order, g.worker, g.ttl).tasks
      && Exec(w, Commit(tx)).attempts == Holders(GrantAll(db, order, g.worker, g.ttl).attempts)
  {
    RunSafe(NOTHING, statements);
    CommitWritesGrant(ExecAll(NOTHING, statements), tx, order, db);
    CommitWritesAttempts(ExecAll(NOTHING, statements), tx, order, db);
  }
}
