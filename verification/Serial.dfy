/** Whatever the interleaving, the committed tables are those of a run in which the transactions took
    their turns one after another, in the order in which they committed. */
module Serial {
  import opened Wrappers
  import opened Tables
  import opened Locking

  /** A statement of an open transaction that can run now and does something: an update whose WHERE
      clause meets no row leaves nothing behind, not even a lock. */
  predicate Takes(w: World, s: Statement) {
    && Inner(s) && Enabled(w, s)
    && (s.Update? || s.ExtendLease? ==> Accepts(View(w.tasks, w.open[s.tx], s.id), s, w.open[s.tx].now))
  }

  /** What the open transaction has done so far, its BEGIN included. */
  function Own(statements: seq<Statement>, tx: TxId): seq<Statement> {
    if statements == [] then [] else
      var front, last := statements[..|statements| - 1], statements[|statements| - 1];
      var w := ExecAll(NOTHING, front);
      if last.Begin? && last.tx == tx && Enabled(w, last) then [last]
      else if Inner(last) && last.tx == tx && Takes(w, last) then Own(front, tx) + [last]
      else Own(front, tx)
  }

  /** The same work with every committed transaction in one piece, at its commit. */
  function InCommitOrder(statements: seq<Statement>): seq<Statement> {
    if statements == [] then [] else
      var front, last := statements[..|statements| - 1], statements[|statements| - 1];
      var w := ExecAll(NOTHING, front);
      if !Enabled(w, last) then InCommitOrder(front)
      else if last.Submit? then InCommitOrder(front) + [last]
      else if last.Commit? then InCommitOrder(front) + Own(front, last.tx) + [last]
      else InCommitOrder(front)
  }

  // ---- a transaction on its own --------------------------------------------------------------------------------

  /** The tables with this transaction the only one open. */
  function Alone(tasks: map<TaskId, Task>, tx: TxId, x: Tx): World {
    World(tasks, map[], map[tx := x])
  }

  /** The transaction that `own` builds up on these rows, if each of its statements takes. */
  function Replayed(tasks: map<TaskId, Task>, own: seq<Statement>, tx: TxId): Option<Tx> {
    if own == [] then None else
      var front, last := own[..|own| - 1], own[|own| - 1];
      if last.Begin? then (if last.tx == tx && front == [] then Some(Opened(last.now, last.claims)) else None)
      else
        var before := Replayed(tasks, front, tx);
        if before.Some? && Inner(last) && last.tx == tx && Takes(Alone(tasks, tx, before.value), last)
        then Some(TxAfter(Alone(tasks, tx, before.value), last)) else None
  }

  lemma LocksGrow(w: World, s: Statement)
    requires Takes(w, s)
    ensures w.open[s.tx].locks <= TxAfter(w, s).locks
  {}

  /** A statement that takes looks only at rows it then holds. */
  lemma SameOnHeldRows(tasks: map<TaskId, Task>, after: map<TaskId, Task>, tx: TxId, x: Tx, s: Statement)
    requires Inner(s) && s.tx == tx && Takes(Alone(tasks, tx, x), s) && tasks.Keys <= after.Keys
    requires forall id <- TxAfter(Alone(tasks, tx, x), s).locks :: id in tasks ==> after[id] == tasks[id]
    ensures Takes(Alone(after, tx, x), s) && TxAfter(Alone(after, tx, x), s) == TxAfter(Alone(tasks, tx, x), s)
  {
    assert LockedElsewhere(map[tx := x], tx) == {};
    match s
    case GrantPicked(_, g) => {
      assert GrantedRows(after, g, x.now) == GrantedRows(tasks, g, x.now);
      assert GrantedKeys(after, g.ids) == GrantedKeys(tasks, g.ids);
      assert GrantedAttempts(after, g) == GrantedAttempts(tasks, g);
    }
    case _ =>
  }

  /** So a transaction is what it was however the rows it does not hold change. */
  lemma {:induction false} ReplayedFrame(tasks: map<TaskId, Task>, after: map<TaskId, Task>, own: seq<Statement>, tx: TxId)
    requires Replayed(tasks, own, tx).Some? && tasks.Keys <= after.Keys
    requires forall id <- Replayed(tasks, own, tx).value.locks :: id in tasks ==> after[id] == tasks[id]
    ensures Replayed(after, own, tx) == Replayed(tasks, own, tx)
  {
    var front, last := own[..|own| - 1], own[|own| - 1];
    if !last.Begin? {
      var before := Replayed(tasks, front, tx).value;
      LocksGrow(Alone(tasks, tx, before), last);
      ReplayedFrame(tasks, after, front, tx);
      SameOnHeldRows(tasks, after, tx, before, last);
    }
  }

  /** With nobody else there a transaction's statement takes as it did among others. */
  lemma TakesAlone(w: World, s: Statement)
    requires Takes(w, s)
    ensures Takes(Alone(w.tasks, s.tx, w.open[s.tx]), s)
    ensures TxAfter(Alone(w.tasks, s.tx, w.open[s.tx]), s) == TxAfter(w, s)
  {
    assert LockedElsewhere(map[s.tx := w.open[s.tx]], s.tx) == {};
  }

  lemma IdleStatement(w: World, s: Statement)
    requires Inner(s) && !Takes(w, s)
    ensures Exec(w, s).tasks == w.tasks && Exec(w, s).open == w.open
  {
    if Enabled(w, s) {
      assert w.open[s.tx := w.open[s.tx]] == w.open;
    }
  }

  // ---- an interleaving against it ------------------------------------------------------------------------------

  /** Nobody else touches an open transaction or the rows it holds. */
  lemma OthersStatement(w: World, s: Statement, tx: TxId)
    requires Safe(w) && tx in w.open && tx in Exec(w, s).open && !(Inner(s) && s.tx == tx)
    ensures Exec(w, s).open[tx] == w.open[tx] && w.tasks.Keys <= Exec(w, s).tasks.Keys
    ensures forall id <- w.open[tx].locks :: id in w.tasks ==> Exec(w, s).tasks[id] == w.tasks[id]
  {
    assert TxOk(w.tasks, w.open[tx]);
    if Enabled(w, s) && s.Commit? {
      assert TxOk(w.tasks, w.open[s.tx]) && w.open[s.tx].locks !! w.open[tx].locks;
    }
  }

  lemma ReplayedOn(tasks: map<TaskId, Task>, own: seq<Statement>, tx: TxId, x: Tx, s: Statement)
    requires Replayed(tasks, own, tx) == Some(x) && Inner(s) && s.tx == tx && Takes(Alone(tasks, tx, x), s)
    ensures Replayed(tasks, own + [s], tx) == Some(TxAfter(Alone(tasks, tx, x), s))
  {
    assert (own + [s])[..|own|] == own;
  }

  /** An open transaction is at every moment what its own statements alone would have made of it on the
      tables as they now are. */
  lemma {:induction false} OwnReplayed(statements: seq<Statement>, tx: TxId)
    requires tx in ExecAll(NOTHING, statements).open
    ensures Replayed(ExecAll(NOTHING, statements).tasks, Own(statements, tx), tx) == Some(ExecAll(NOTHING, statements).open[tx])
  {
    var front, last := statements[..|statements| - 1], statements[|statements| - 1];
    var w := ExecAll(NOTHING, front);
    if tx in w.open {
      RunSafe(NOTHING, front);
      OwnReplayed(front, tx);
      if !(Inner(last) && last.tx == tx) {
        OthersStatement(w, last, tx);
        ReplayedFrame(w.tasks, Exec(w, last).tasks, Own(front, tx), tx);
      } else if Takes(w, last) {
        TakesAlone(w, last);
        ReplayedOn(w.tasks, Own(front, tx), tx, w.open[tx], last);
      } else {
        IdleStatement(w, last);
      }
    }
  }

  /** Replaying is running: with no other transaction open. */
  lemma {:induction false} ReplayedRuns(w: World, own: seq<Statement>, tx: TxId)
    requires w.open == map[] && Replayed(w.tasks, own, tx).Some?
    ensures ExecAll(w, own) == w.(open := map[tx := Replayed(w.tasks, own, tx).value])
  {
    var front, last := own[..|own| - 1], own[|own| - 1];
    if !last.Begin? {
      ReplayedRuns(w, front, tx);
      var x := Replayed(w.tasks, front, tx).value;
      NextAlone(w, tx, x, last);
    }
  }

  lemma NextAlone(w: World, tx: TxId, x: Tx, s: Statement)
    requires Inner(s) && s.tx == tx && Takes(Alone(w.tasks, tx, x), s)
    ensures Exec(w.(open := map[tx := x]), s) == w.(open := map[tx := TxAfter(Alone(w.tasks, tx, x), s)])
  {}

  lemma {:induction false} ExecConcat(w: World, a: seq<Statement>, b: seq<Statement>)
    ensures ExecAll(w, a + b) == ExecAll(ExecAll(w, a), b)
  {
    if b == [] {
      assert a + b == a;
    } else {
      assert (a + b)[..|a + b| - 1] == a + b[..|b| - 1];
      ExecConcat(w, a, b[..|b| - 1]);
    }
  }

  lemma ExecSnoc(w: World, front: seq<Statement>, last: Statement)
    ensures ExecAll(w, front + [last]) == Exec(ExecAll(w, front), last)
  {
    assert (front + [last])[..|front|] == front;
  }

  /** A whole transaction at its commit. */
  lemma CommitInOnePiece(w: World, v: World, own: seq<Statement>, tx: TxId)
    requires tx in w.open && v.open == map[] && v.tasks == w.tasks && v.attempts == w.attempts
    requires Replayed(w.tasks, own, tx) == Some(w.open[tx])
    ensures var after := ExecAll(v, own + [Commit(tx)]);
      after.open == map[] && after.tasks == Exec(w, Commit(tx)).tasks && after.attempts == Exec(w, Commit(tx)).attempts
  {
    ReplayedRuns(v, own, tx);
    ExecSnoc(v, own, Commit(tx));
  }

  /** Serializability: for every interleaving of claims, recoveries, completions, renewals, cancellations
      and submissions, the committed task and attempt rows are those of the run in which each committed
      transaction does all its work at its commit, with no other transaction open. */
  lemma {:induction false} CommitOrderIsSerial(statements: seq<Statement>)
    ensures var w := ExecAll(NOTHING, statements); var v := ExecAll(NOTHING, InCommitOrder(statements));
      v.open == map[] && v.tasks == w.tasks && v.attempts == w.attempts
  {
    if statements == [] {
    } else {
      var front, last := statements[..|statements| - 1], statements[|statements| - 1];
      var w, order := ExecAll(NOTHING, front), InCommitOrder(front);
      CommitOrderIsSerial(front);
      if !Enabled(w, last) {
      } else if last.Submit? {
        ExecSnoc(NOTHING, order, last);
      } else if last.Commit? {
        OwnReplayed(front, last.tx);
        CommitInOnePiece(w, ExecAll(NOTHING, order), Own(front, last.tx), last.tx);
        assert order + Own(front, last.tx) + [last] == order + (Own(front, last.tx) + [last]);
        ExecConcat(NOTHING, order, Own(front, last.tx) + [last]);
      }
    }
  }
}
