/** The protocol's atomic steps and the interleaved statements: each run of the one is a run of the other. */
module Refinement {
  import opened Orders
  import opened Tables
  import opened Claim
  import opened Rounds
  import opened Tasks
  import opened Ledger
  import opened Protocol
  import opened Locking
  import opened Serial
  import opened Scripts

  // ---- interleavings are runs -----------------------------------------------------------------------------------------------

  /** The tables of an interleaving are those of a state of the protocol. */
  ghost predicate SameTables(w: World, db: Db) {
    w.tasks == db.tasks && w.attempts == Holders(db.attempts)
  }

  /** A claim that granted these ids, in whatever rounds it picked them, or that granted nothing. */
  predicate Grants(x: Tx, ids: seq<TaskId>, worker: WorkerId, ttl: nat) {
    && x.role.Claimer?
    && if x.role.granted.Some? then x.role.granted.value == Granted(Elements(ids), worker, ttl) else ids == []
  }

  /** The open transaction has done what step `s` does in state `db`, on its clock. */
  ghost predicate Performs(statements: seq<Statement>, tx: TxId, db: Db, s: Step)
    requires tx in ExecAll(NOTHING, statements).open
  {
    var x := ExecAll(NOTHING, statements).open[tx];
    && x.now == db.now
    && if s.Claiming? then Grants(x, ClaimWithin(db, s.caps, s.limit, s.locked, s.rounds), s.worker, s.ttl)
       else Writes(s) && Own(statements, tx) == Script(db, tx, s)
  }

  lemma WriteActs(statements: seq<Statement>, tx: TxId, db: Db, s: Step)
    requires tx in ExecAll(NOTHING, statements).open && SameTables(ExecAll(NOTHING, statements), db)
    requires Writes(s) && Own(statements, tx) == Script(db, tx, s)
    ensures SameTables(Exec(ExecAll(NOTHING, statements), Commit(tx)), Apply(db, s))
  {
    OwnReplayed(statements, tx);
    CommitInOnePiece(ExecAll(NOTHING, statements), Quiet(db), Own(statements, tx), tx);
    ScriptActs(db, tx, s);
  }

  lemma NothingGranted(w: World, tx: TxId)
    requires Safe(w) && tx in w.open && w.open[tx].role.Claimer? && w.open[tx].role.granted.None?
    ensures Exec(w, Commit(tx)).tasks == w.tasks && Exec(w, Commit(tx)).attempts == w.attempts
  {
    assert TxOk(w.tasks, w.open[tx]);
  }

  lemma GrantActs(w: World, tx: TxId, db: Db, ids: seq<TaskId>, worker: WorkerId, ttl: nat)
    requires Safe(w) && tx in w.open && SameTables(w, db) && w.open[tx].now == db.now
    requires Grants(w.open[tx], ids, worker, ttl) && Distinct(ids)
    ensures SameTables(Exec(w, Commit(tx)), GrantAll(db, ids, worker, ttl))
  {
    if w.open[tx].role.granted.Some? {
      CommitMerges(w, tx);
      GrantAllRows(db, ids, w.open[tx].role.granted.value);
      GrantAllAttempts(db, ids, w.open[tx].role.granted.value);
    } else {
      NothingGranted(w, tx);
    }
  }

  lemma ClaimActs(w: World, tx: TxId, db: Db, s: Step)
    requires Safe(w) && tx in w.open && SameTables(w, db) && w.open[tx].now == db.now && Coherent(db) && s.Claiming?
    requires Grants(w.open[tx], ClaimWithin(db, s.caps, s.limit, s.locked, s.rounds), s.worker, s.ttl)
    ensures SameTables(Exec(w, Commit(tx)), Apply(db, s))
  {
    ClaimCoherent(db, s.worker, s.limit, s.ttl, s.caps, s.locked, s.rounds);
    GrantActs(w, tx, db, ClaimWithin(db, s.caps, s.limit, s.locked, s.rounds), s.worker, s.ttl);
  }

  /** A transaction among any others, committed, is the protocol's step. */
  lemma CommitIsStep(statements: seq<Statement>, tx: TxId, db: Db, s: Step)
    requires tx in ExecAll(NOTHING, statements).open && SameTables(ExecAll(NOTHING, statements), db)
    requires Coherent(db) && Performs(statements, tx, db, s)
    ensures SameTables(Exec(ExecAll(NOTHING, statements), Commit(tx)), Apply(db, s))
  {
    if s.Claiming? {
      RunSafe(NOTHING, statements);
      ClaimActs(ExecAll(NOTHING, statements), tx, db, s);
    } else {
      WriteActs(statements, tx, db, s);
    }
  }

  /** A step that leaves both tables alone: a tick, a new tenant, a note, a call that is refused. */
  ghost predicate Silent(db: Db, s: Step) {
    Apply(db, s).tasks == db.tasks && Holders(Apply(db, s).attempts) == Holders(db.attempts)
  }

  /** A statement that changes the committed tables. */
  predicate Publishes(w: World, s: Statement) {
    Enabled(w, s) && (s.Submit? || s.Commit?)
  }

  /** What a publishing statement stands for: a submission that inserts this row, or a transaction's step. */
  ghost predicate Stands(front: seq<Statement>, last: Statement, db: Db, s: Step)
    requires Publishes(ExecAll(NOTHING, front), last)
  {
    if last.Submit? then
      s.Submission? && Apply(db, s).tasks == db.tasks[last.id := last.row] && Apply(db, s).attempts == db.attempts
    else Performs(front, last.tx, db, s)
  }

  /** An interleaving in which every submission and every commit, in order, stands for a step of the
      protocol; silent steps may come in between. */
  ghost predicate Follows(statements: seq<Statement>, steps: seq<Step>)
    decreases |statements| + |steps|
  {
    || (statements == [] && steps == [])
    || (steps != [] && Silent(Run(EMPTY, steps[..|steps| - 1]), steps[|steps| - 1]) && Follows(statements, steps[..|steps| - 1]))
    || (statements != []
        && var front, last := statements[..|statements| - 1], statements[|statements| - 1];
           if !Publishes(ExecAll(NOTHING, front), last) then Follows(front, steps)
           else steps != [] && Follows(front, steps[..|steps| - 1])
                && Stands(front, last, Run(EMPTY, steps[..|steps| - 1]), steps[|steps| - 1]))
  }

  lemma PublishedIsStep(front: seq<Statement>, last: Statement, db: Db, s: Step)
    requires Publishes(ExecAll(NOTHING, front), last) && Stands(front, last, db, s)
    requires Coherent(db) && SameTables(ExecAll(NOTHING, front), db)
    ensures SameTables(Exec(ExecAll(NOTHING, front), last), Apply(db, s))
  {
    if last.Commit? { CommitIsStep(front, last.tx, db, s); }
  }

  lemma Unpublished(w: World, s: Statement)
    requires !Publishes(w, s)
    ensures Exec(w, s).tasks == w.tasks && Exec(w, s).attempts == w.attempts
  {}

  /** Refinement: the committed tables of such an interleaving are those of the run of the protocol, so
      whatever holds in every run of it holds of them. */
  lemma {:induction false} InterleavingIsRun(statements: seq<Statement>, steps: seq<Step>)
    requires Follows(statements, steps)
    ensures SameTables(ExecAll(NOTHING, statements), Run(EMPTY, steps))
    decreases |statements| + |steps|
  {
    if statements == [] && steps == [] {
    } else if steps != [] && Silent(Run(EMPTY, steps[..|steps| - 1]), steps[|steps| - 1]) && Follows(statements, steps[..|steps| - 1]) {
      InterleavingIsRun(statements, steps[..|steps| - 1]);
    } else {
      var front, last := statements[..|statements| - 1], statements[|statements| - 1];
      if !Publishes(ExecAll(NOTHING, front), last) {
        InterleavingIsRun(front, steps);
        Unpublished(ExecAll(NOTHING, front), last);
      } else {
        InterleavingIsRun(front, steps[..|steps| - 1]);
        EmptyCoherent();
        RunCoherent(EMPTY, steps[..|steps| - 1]);
        PublishedIsStep(front, last, Run(EMPTY, steps[..|steps| - 1]), steps[|steps| - 1]);
      }
    }
  }

  // ---- every run of the protocol is one of them ------------------------------------------------------------------------------

  lemma FollowsSilently(statements: seq<Statement>, steps: seq<Step>, s: Step)
    requires Follows(statements, steps) && Silent(Run(EMPTY, steps), s)
    ensures Follows(statements, steps + [s])
  {
    assert (steps + [s])[..|steps|] == steps;
  }

  lemma FollowsQuietly(statements: seq<Statement>, last: Statement, steps: seq<Step>)
    requires Follows(statements, steps) && !last.Submit? && !last.Commit?
    ensures Follows(statements + [last], steps)
  {
    assert (statements + [last])[..|statements|] == statements;
  }

  lemma FollowsOnward(statements: seq<Statement>, last: Statement, steps: seq<Step>, s: Step)
    requires Follows(statements, steps) && Publishes(ExecAll(NOTHING, statements), last)
    requires Stands(statements, last, Run(EMPTY, steps), s)
    ensures Follows(statements + [last], steps + [s])
  {
    assert (statements + [last])[..|statements|] == statements && (steps + [s])[..|steps|] == steps;
  }

  /** The statements of a transaction publish nothing before its commit. */
  lemma {:induction false} FollowsThroughout(statements: seq<Statement>, own: seq<Statement>, tasks: map<TaskId, Task>, tx: TxId,
                                             steps: seq<Step>)
    requires Follows(statements, steps) && Replayed(tasks, own, tx).Some?
    ensures Follows(statements + own, steps)
  {
    var front, last := own[..|own| - 1], own[|own| - 1];
    FrontAndLast(own);
    if last.Begin? {
      assert statements + own == statements + [last];
      FollowsQuietly(statements, last, steps);
    } else {
      FollowsThroughout(statements, front, tasks, tx, steps);
      FollowsQuietly(statements + front, last, steps);
      assert statements + front + [last] == statements + own;
    }
  }

  lemma OwnNext(statements: seq<Statement>, last: Statement, tx: TxId)
    requires Inner(last) && last.tx == tx && Takes(ExecAll(NOTHING, statements), last)
    ensures Own(statements + [last], tx) == Own(statements, tx) + [last]
  {
    assert (statements + [last])[..|statements|] == statements;
  }

  lemma OwnFirst(statements: seq<Statement>, last: Statement, tx: TxId)
    requires last.Begin? && last.tx == tx && tx !in ExecAll(NOTHING, statements).open
    ensures Own(statements + [last], tx) == [last]
  {
    assert (statements + [last])[..|statements|] == statements;
  }

  lemma RunsOn(statements: seq<Statement>, own: seq<Statement>, tx: TxId)
    requires ExecAll(NOTHING, statements).open == map[] && Replayed(ExecAll(NOTHING, statements).tasks, own, tx).Some?
    ensures var w := ExecAll(NOTHING, statements);
      ExecAll(NOTHING, statements + own) == w.(open := map[tx := Replayed(w.tasks, own, tx).value])
  {
    ExecConcat(NOTHING, statements, own);
    ReplayedRuns(ExecAll(NOTHING, statements), own, tx);
  }

  /** A transaction that runs alone after a quiet run has done just its own statements. */
  lemma {:induction false} OwnAlone(statements: seq<Statement>, own: seq<Statement>, tx: TxId)
    requires ExecAll(NOTHING, statements).open == map[] && Replayed(ExecAll(NOTHING, statements).tasks, own, tx).Some?
    ensures Own(statements + own, tx) == own
  {
    var front, last := own[..|own| - 1], own[|own| - 1];
    FrontAndLast(own);
    if last.Begin? {
      assert statements + own == statements + [last];
      OwnFirst(statements, last, tx);
    } else {
      OwnAlone(statements, front, tx);
      RunsOn(statements, front, tx);
      OwnNext(statements + front, last, tx);
      assert statements + front + [last] == statements + own;
    }
  }

  /** A run of the protocol, an interleaving that follows it, and nothing left open. */
  ghost predicate Realised(statements: seq<Statement>, steps: seq<Step>) {
    Follows(statements, steps) && ExecAll(NOTHING, statements).open == map[]
  }

  lemma RealisedSilently(statements: seq<Statement>, steps: seq<Step>, s: Step)
    requires Realised(statements, steps) && Silent(Run(EMPTY, steps), s)
    ensures Realised(statements, steps + [s])
  {
    FollowsSilently(statements, steps, s);
  }

  /** One transaction more. */
  lemma RealisedByScript(statements: seq<Statement>, steps: seq<Step>, own: seq<Statement>, x: Tx, s: Step)
    requires Realised(statements, steps) && Built(Run(EMPTY, steps), 0, own, x) && x.now == Run(EMPTY, steps).now
    requires if s.Claiming? then Grants(x, ClaimWithin(Run(EMPTY, steps), s.caps, s.limit, s.locked, s.rounds), s.worker, s.ttl)
             else Writes(s) && own == Script(Run(EMPTY, steps), 0, s)
    ensures Realised(statements + own + [Commit(0)], steps + [s])
  {
    InterleavingIsRun(statements, steps);
    FollowsThroughout(statements, own, Run(EMPTY, steps).tasks, 0, steps);
    OwnAlone(statements, own, 0);
    RunsOn(statements, own, 0);
    FollowsOnward(statements + own, Commit(0), steps, s);
    ExecSnoc(NOTHING, statements + own, Commit(0));
  }

  lemma {:induction false} ReplayedClock(tasks: map<TaskId, Task>, own: seq<Statement>, tx: TxId, now: Time)
    requires Replayed(tasks, own, tx).Some? && own[0].Begin? && own[0].now == now
    ensures Replayed(tasks, own, tx).value.now == now
  {
    if |own| == 1 {
    } else {
      var front := own[..|own| - 1];
      assert front[0] == own[0];
      ReplayedClock(tasks, front, tx, now);
    }
  }

  lemma ScriptBegins(db: Db, s: Step)
    requires Writes(s)
    ensures Script(db, 0, s) != [] && Script(db, 0, s)[0] == Begin(0, db.now, false)
  {}

  lemma WriteRealised(statements: seq<Statement>, steps: seq<Step>, s: Step)
    requires Realised(statements, steps) && Writes(s)
    ensures exists longer: seq<Statement> :: Realised(longer, steps + [s])
  {
    var db := Run(EMPTY, steps);
    ScriptActs(db, 0, s);
    ScriptBegins(db, s);
    ReplayedClock(db.tasks, Script(db, 0, s), 0, db.now);
    RealisedByScript(statements, steps, Script(db, 0, s), Replayed(db.tasks, Script(db, 0, s), 0).value, s);
  }

  lemma ClaimRealised(statements: seq<Statement>, steps: seq<Step>, s: Step)
    requires Realised(statements, steps) && s.Claiming?
    ensures exists longer: seq<Statement> :: Realised(longer, steps + [s])
  {
    var db := Run(EMPTY, steps);
    var ids := ClaimWithin(db, s.caps, s.limit, s.locked, s.rounds);
    ClaimGuarantee(db, s.caps, s.limit, s.locked, s.rounds);
    assert forall id <- Elements(ids) :: id in ids;
    ClaimBuilt(db, 0, s.worker, s.ttl, ids);
    RealisedByScript(statements, steps, ClaimScript(db, 0, s.worker, s.ttl, ids), Claimed(db, s.worker, s.ttl, Elements(ids)), s);
  }

  lemma SubmissionRealised(statements: seq<Statement>, steps: seq<Step>, s: Step)
    requires Realised(statements, steps) && s.Submission?
    ensures exists longer: seq<Statement> :: Realised(longer, steps + [s])
  {
    var db := Run(EMPTY, steps);
    InterleavingIsRun(statements, steps);
    if Apply(db, s) == db {
      RealisedSilently(statements, steps, s);
    } else {
      var last := Submit(s.id, NewTask(Traced(s.request, s.env), db.now));
      FollowsOnward(statements, last, steps, s);
      ExecSnoc(NOTHING, statements, last);
      assert Realised(statements + [last], steps + [s]);
    }
  }

  /** And every run of the protocol is the run of some interleaving. */
  lemma {:induction false} RunIsInterleaving(steps: seq<Step>)
    ensures exists statements: seq<Statement> :: Realised(statements, steps)
  {
    if steps == [] {
      assert Realised([], []);
    } else {
      var front, last := steps[..|steps| - 1], steps[|steps| - 1];
      FrontAndLast(steps);
      RunIsInterleaving(front);
      var statements: seq<Statement> :| Realised(statements, front);
      if last.Claiming? {
        ClaimRealised(statements, front, last);
      } else if Writes(last) {
        WriteRealised(statements, front, last);
      } else if last.Submission? {
        SubmissionRealised(statements, front, last);
      } else {
        RealisedSilently(statements, front, last);
      }
    }
  }
}
