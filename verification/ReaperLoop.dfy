/** src/acp/reaper/loop.py: one sweep drains the backlog in bounded batches, leases first, then hung tasks. */
module ReaperLoop {
  import opened Wrappers
  import opened Orders
  import opened States
  import opened Tables
  import opened Reap
  import opened Protocol

  /** Everything a phase could take back, longest overdue first. */
  function Backlog(db: Db, phase: Phase, locked: set<TaskId>): seq<Due> {
    EarlierIsTotalOrder();
    Ascending(DueRows(db, phase, locked), Earlier)
  }

  /** What `batches` batches of `size` take: the head of the backlog. */
  function Taken(db: Db, phase: Phase, locked: set<TaskId>, size: nat, batches: nat): seq<Due> {
    Cut(size * batches, Backlog(db, phase, locked))
  }

  function Drained(db: Db, phase: Phase, locked: set<TaskId>, size: nat, batches: nat): Db {
    ReapAll(db, phase, Ids(Taken(db, phase, locked, size, batches)))
  }

  /** A whole sweep: `polls` is how often the stop flag is still found clear. */
  function Swept(db: Db, locked: set<TaskId>, size: nat, maxBatches: nat, polls: nat): Db {
    var first := Drained(db, LeasePhase, locked, size, Min(maxBatches, polls));
    var left := PollsLeft(|Backlog(db, LeasePhase, locked)|, size, maxBatches, polls);
    Drained(first, HungPhase, locked, size, Min(maxBatches, left))
  }

  /** How many batches a phase runs over `due` candidates before it stops or breaks off. */
  function BatchesRun(due: nat, size: nat, batches: nat): nat {
    if batches == 0 then 0
    else if due < size then 1
    else 1 + BatchesRun(due - size, size, batches - 1)
  }

  function PollsLeft(due: nat, size: nat, maxBatches: nat, polls: nat): nat {
    var ran := BatchesRun(due, size, Min(maxBatches, polls));
    if ran < polls then polls - ran else 0
  }

  // ---- the order of the backlog ---------------------------------------------------------------------------

  lemma BacklogFacts(db: Db, phase: Phase, locked: set<TaskId>)
    ensures var all := Backlog(db, phase, locked);
            Increasing(all, Earlier) && Elements(all) == DueRows(db, phase, locked) && |all| == |DueRows(db, phase, locked)|
  {
    EarlierIsTotalOrder();
    AscendingIncreases(DueRows(db, phase, locked), Earlier);
  }

  lemma {:induction false} ReapAllConcat(db: Db, phase: Phase, a: seq<TaskId>, b: seq<TaskId>)
    ensures ReapAll(db, phase, a + b) == ReapAll(ReapAll(db, phase, a), phase, b)
  {
    if b == [] {
      assert a + b == a;
    } else {
      assert (a + b)[..|a + b| - 1] == a + b[..|b| - 1];
      ReapAllConcat(db, phase, a, b[..|b| - 1]);
    }
  }

  lemma {:induction false} ExhaustedConcat(tasks: map<TaskId, Task>, a: seq<Due>, b: seq<Due>)
    ensures ExhaustedIn(tasks, a + b) == ExhaustedIn(tasks, a) + ExhaustedIn(tasks, b)
  {
    if b == [] {
      assert a + b == a;
    } else {
      assert (a + b)[..|a + b| - 1] == a + b[..|b| - 1];
      ExhaustedConcat(tasks, a, b[..|b| - 1]);
    }
  }

  lemma {:induction false} ExhaustedFrame(a: map<TaskId, Task>, b: map<TaskId, Task>, rows: seq<Due>)
    requires forall r <- rows :: r.id in a && r.id in b && a[r.id] == b[r.id]
    ensures ExhaustedIn(a, rows) == ExhaustedIn(b, rows)
  {
    if rows == [] {
    } else {
      ExhaustedFrame(a, b, rows[..|rows| - 1]);
    }
  }

  /** After the first n of the backlog are taken back, the rest of it is the backlog. */
  lemma BacklogAfter(db: Db, phase: Phase, locked: set<TaskId>, n: nat)
    requires n <= |Backlog(db, phase, locked)|
    ensures var all := Backlog(db, phase, locked);
            Backlog(ReapAll(db, phase, Ids(all[..n])), phase, locked) == all[n..]
  {
    var all := Backlog(db, phase, locked);
    BacklogFacts(db, phase, locked);
    EarlierIsTotalOrder();
    DueAfterBatch(db, phase, locked, all[..n]);
    AscendingDrop(DueRows(db, phase, locked), n, Earlier);
  }

  lemma LaterRowsUntouched(db: Db, phase: Phase, locked: set<TaskId>, n: nat)
    requires n <= |Backlog(db, phase, locked)|
    ensures var all := Backlog(db, phase, locked); var after := ReapAll(db, phase, Ids(all[..n]));
            forall r <- all[n..] :: r.id in db.tasks && r.id in after.tasks && after.tasks[r.id] == db.tasks[r.id]
  {
    var all := Backlog(db, phase, locked);
    BacklogFacts(db, phase, locked);
    DistinctIds(db, phase, locked, all);
    DistinctIds(db, phase, locked, all[..n]);
    ReapAllEffect(db, phase, Ids(all[..n]));
    forall r | r in all[n..]
      ensures r.id in db.tasks && r.id !in Ids(all[..n])
    {
      var j :| n <= j < |all| && all[j] == r;
      assert Ids(all)[j] == r.id && r.id in Ids(all);
      forall i | 0 <= i < n ensures Ids(all[..n])[i] != r.id {
        assert Ids(all)[i] == Ids(all[..n])[i];
      }
    }
  }

  /** The next batch finds the next slice of the backlog. */
  lemma NextSlice(db: Db, phase: Phase, locked: set<TaskId>, size: nat, n: nat)
    requires n <= |Backlog(db, phase, locked)|
    ensures var all := Backlog(db, phase, locked);
            FindDue(ReapAll(db, phase, Ids(all[..n])), phase, size, locked) == all[n..Min(n + size, |all|)]
  {
    var all := Backlog(db, phase, locked);
    BacklogAfter(db, phase, locked, n);
    CutOfRest(all, n, size);
  }

  lemma CutOfRest(all: seq<Due>, n: nat, size: nat)
    requires n <= |all|
    ensures Cut(size, all[n..]) == all[n..Min(n + size, |all|)]
  {}

  lemma SliceCounted(db: Db, phase: Phase, locked: set<TaskId>, n: nat, m: nat)
    requires n <= m <= |Backlog(db, phase, locked)|
    ensures var all := Backlog(db, phase, locked);
            ExhaustedIn(ReapAll(db, phase, Ids(all[..n])).tasks, all[n..m]) + ExhaustedIn(db.tasks, all[..n])
            == ExhaustedIn(db.tasks, all[..m])
  {
    var all := Backlog(db, phase, locked);
    LaterRowsUntouched(db, phase, locked, n);
    assert forall r <- all[n..m] :: r in all[n..];
    ExhaustedFrame(db.tasks, ReapAll(db, phase, Ids(all[..n])).tasks, all[n..m]);
    assert all[..m] == all[..n] + all[n..m];
    ExhaustedConcat(db.tasks, all[..n], all[n..m]);
  }

  lemma SliceReaped(db: Db, phase: Phase, all: seq<Due>, n: nat, m: nat)
    requires n <= m <= |all|
    ensures ReapAll(ReapAll(db, phase, Ids(all[..n])), phase, Ids(all[n..m])) == ReapAll(db, phase, Ids(all[..m]))
  {
    assert Ids(all[..m]) == Ids(all[..n]) + Ids(all[n..m]);
    ReapAllConcat(db, phase, Ids(all[..n]), Ids(all[n..m]));
  }

  // ---- the loops -----------------------------------------------------------------------------------------

  /** Where a phase stands after `i` full batches. */
  ghost predicate AfterBatches(db: Db, phase: Phase, locked: set<TaskId>, size: nat, i: nat, now: Db, requeued: nat, failed: nat) {
    var taken := Taken(db, phase, locked, size, i);
    && now == ReapAll(db, phase, Ids(taken))
    && requeued + failed == |taken|
    && failed == ExhaustedIn(db.tasks, taken)
  }

  /** What the next batch does to the counters, and what it means that it came back short. */
  lemma BatchAdvances(db: Db, phase: Phase, locked: set<TaskId>, size: nat, i: nat, now: Db, requeued: nat, failed: nat)
    requires AfterBatches(db, phase, locked, size, i, now, requeued, failed)
    ensures var rows := FindDue(now, phase, size, locked); var bad := ExhaustedIn(now.tasks, rows); var due := |Backlog(db, phase, locked)|;
      && bad <= |rows|
      && AfterBatches(db, phase, locked, size, i + 1, ReapAll(now, phase, Ids(rows)), requeued + |rows| - bad, failed + bad)
      && (|rows| < size <==> due < size * (i + 1))
  {
    var all := Backlog(db, phase, locked);
    var n := |Taken(db, phase, locked, size, i)|;
    assert Taken(db, phase, locked, size, i) == all[..n];
    NextSlice(db, phase, locked, size, n);
    SliceReaped(db, phase, all, n, Min(n + size, |all|));
    SliceCounted(db, phase, locked, n, Min(n + size, |all|));
    assert size * (i + 1) == size * i + size;
    assert Taken(db, phase, locked, size, i + 1) == all[..Min(n + size, |all|)];
    ExhaustedBound(now.tasks, FindDue(now, phase, size, locked));
  }

  lemma {:induction false} ExhaustedBound(tasks: map<TaskId, Task>, rows: seq<Due>)
    ensures ExhaustedIn(tasks, rows) <= |rows|
  {
    if rows == [] {
    } else {
      ExhaustedBound(tasks, rows[..|rows| - 1]);
    }
  }

  /** A backlog used up stays used up. */
  lemma MoreBatchesTakeNothing(db: Db, phase: Phase, locked: set<TaskId>, size: nat, i: nat, batches: nat)
    requires i <= batches && |Backlog(db, phase, locked)| <= size * i
    ensures Taken(db, phase, locked, size, batches) == Taken(db, phase, locked, size, i)
  {
    MultiplesGrow(size, i, batches);
  }

  lemma {:induction false} RunsUntilShort(due: nat, size: nat, i: nat, batches: nat)
    requires i <= batches && size * i <= due
    ensures BatchesRun(due, size, batches) == i + BatchesRun(due - size * i, size, batches - i)
  {
    if i == 0 {
    } else {
      MultiplesGrow(size, 1, i);
      assert size * i == size + size * (i - 1);
      RunsUntilShort(due - size, size, i - 1, batches - 1);
    }
  }

  /** What a phase has to leave behind. */
  ghost predicate PhaseDone(db: Db, phase: Phase, locked: set<TaskId>, size: nat, batches: nat, now: Db,
                            requeued: nat, failed: nat, ran: nat)
  {
    && AfterBatches(db, phase, locked, size, batches, now, requeued, failed)
    && ran == BatchesRun(|Backlog(db, phase, locked)|, size, batches)
  }

  /** A short batch is the last one needed; a full one leaves a longer count of batches. */
  lemma BatchDone(db: Db, phase: Phase, locked: set<TaskId>, size: nat, i: nat, batches: nat, now: Db, requeued: nat, failed: nat)
    requires AfterBatches(db, phase, locked, size, i, now, requeued, failed)
    requires i < batches && size * i <= |Backlog(db, phase, locked)|
    ensures var rows := FindDue(now, phase, size, locked); var bad := ExhaustedIn(now.tasks, rows);
            var after := ReapAll(now, phase, Ids(rows));
      && bad <= |rows|
      && (|rows| < size ==> PhaseDone(db, phase, locked, size, batches, after, requeued + |rows| - bad, failed + bad, i + 1))
      && (|rows| >= size ==>
            && size * (i + 1) <= |Backlog(db, phase, locked)|
            && AfterBatches(db, phase, locked, size, i + 1, after, requeued + |rows| - bad, failed + bad))
  {
    BatchAdvances(db, phase, locked, size, i, now, requeued, failed);
    RunsUntilShort(|Backlog(db, phase, locked)|, size, i, batches);
    if |FindDue(now, phase, size, locked)| < size {
      assert size * (i + 1) == size * i + size;
      MoreBatchesTakeNothing(db, phase, locked, size, i + 1, batches);
    }
  }

  lemma AllBatchesDone(db: Db, phase: Phase, locked: set<TaskId>, size: nat, i: nat, now: Db, requeued: nat, failed: nat)
    requires AfterBatches(db, phase, locked, size, i, now, requeued, failed) && size * i <= |Backlog(db, phase, locked)|
    ensures PhaseDone(db, phase, locked, size, i, now, requeued, failed, i)
  {
    RunsUntilShort(|Backlog(db, phase, locked)|, size, i, i);
  }

  class Reaper {
    const batchSize: nat
    const maxBatches: nat

    constructor (batchSize: nat := 100, maxBatches: nat := 50)
      ensures this.batchSize == batchSize && this.maxBatches == maxBatches
    {
      this.batchSize, this.maxBatches := batchSize, maxBatches;
    }

    /** One phase of `_sweep`, clock and other transactions' locks held fixed: the batches together
        take back exactly the head of the backlog, each row once, and the counters are exact. */
    method Drain(conn: Connection, phase: Phase, locked: set<TaskId>, polls: nat)
      returns (requeued: nat, failed: nat, ran: nat)
      modifies conn
      ensures PhaseDone(old(conn.Snapshot()), phase, locked, batchSize, Min(maxBatches, polls), conn.Snapshot(),
                        requeued, failed, ran)
    {
      ghost var db, batches := conn.Snapshot(), Min(maxBatches, polls);
      requeued, failed, ran := 0, 0, 0;
      NothingYet(db, phase, locked, batchSize);
      while ran < maxBatches
        invariant ran <= batches
        invariant AfterBatches(db, phase, locked, batchSize, ran, conn.Snapshot(), requeued, failed)
        invariant batchSize * ran <= |Backlog(db, phase, locked)|
      {
        if ran == polls {
          break;
        }
        BatchDone(db, phase, locked, batchSize, ran, batches, conn.Snapshot(), requeued, failed);
        var result := ReapBatch(conn, phase, batchSize, locked);
        requeued := requeued + result.requeued;
        failed := failed + result.failedExhausted;
        ran := ran + 1;
        if result.requeued + result.failedExhausted < batchSize {
          return;
        }
      }
      AllBatchesDone(db, phase, locked, batchSize, ran, conn.Snapshot(), requeued, failed);
    }

    /** `_sweep`: the lease phase, then the hung phase with what is left of the polls. */
    method Sweep(conn: Connection, locked: set<TaskId>, polls: nat)
      returns (requeued: nat, failed: nat, hungRequeued: nat, hungFailed: nat)
      modifies conn
      ensures SweepDone(old(conn.Snapshot()), locked, batchSize, maxBatches, polls, conn.Snapshot(),
                        requeued, failed, hungRequeued, hungFailed)
    {
      ghost var db := conn.Snapshot();
      var ran, hungRan;
      requeued, failed, ran := Drain(conn, LeasePhase, locked, polls);
      ghost var middle := conn.Snapshot();
      LeasesDone(db, locked, batchSize, maxBatches, polls, middle, requeued, failed, ran);
      var left := 0;
      if ran < polls {
        left := polls - ran;
      }
      hungRequeued, hungFailed, hungRan := Drain(conn, HungPhase, locked, left);
      HungDone(db, locked, batchSize, maxBatches, polls, middle, left, conn.Snapshot(),
               requeued, failed, hungRequeued, hungFailed, hungRan);
    }
  }

  /** What a sweep leaves behind, and what it counted. */
  ghost predicate SweepDone(db: Db, locked: set<TaskId>, size: nat, maxBatches: nat, polls: nat, now: Db,
                            requeued: nat, failed: nat, hungRequeued: nat, hungFailed: nat)
  {
    var batches := Min(maxBatches, polls);
    var middle := Drained(db, LeasePhase, locked, size, batches);
    var left := Min(maxBatches, PollsLeft(|Backlog(db, LeasePhase, locked)|, size, maxBatches, polls));
    && now == Swept(db, locked, size, maxBatches, polls)
    && Counted(db, LeasePhase, locked, size, batches, requeued, failed)
    && Counted(middle, HungPhase, locked, size, left, hungRequeued, hungFailed)
  }

  /** The counters of a phase: one for each row taken, failed where its budget was used up. */
  ghost predicate Counted(db: Db, phase: Phase, locked: set<TaskId>, size: nat, batches: nat, requeued: nat, failed: nat) {
    var taken := Taken(db, phase, locked, size, batches);
    requeued + failed == |taken| && failed == ExhaustedIn(db.tasks, taken)
  }

  lemma PhaseParts(db: Db, phase: Phase, locked: set<TaskId>, size: nat, batches: nat, now: Db, requeued: nat, failed: nat, ran: nat)
    requires PhaseDone(db, phase, locked, size, batches, now, requeued, failed, ran)
    ensures now == Drained(db, phase, locked, size, batches) && Counted(db, phase, locked, size, batches, requeued, failed)
    ensures ran == BatchesRun(|Backlog(db, phase, locked)|, size, batches)
  {}

  /** Halfway through a sweep. */
  ghost predicate SweepHalf(db: Db, locked: set<TaskId>, size: nat, maxBatches: nat, polls: nat, middle: Db, requeued: nat, failed: nat) {
    && middle == Drained(db, LeasePhase, locked, size, Min(maxBatches, polls))
    && Counted(db, LeasePhase, locked, size, Min(maxBatches, polls), requeued, failed)
  }

  lemma LeasesDone(db: Db, locked: set<TaskId>, size: nat, maxBatches: nat, polls: nat, middle: Db, requeued: nat, failed: nat, ran: nat)
    requires PhaseDone(db, LeasePhase, locked, size, Min(maxBatches, polls), middle, requeued, failed, ran)
    ensures SweepHalf(db, locked, size, maxBatches, polls, middle, requeued, failed)
    ensures PollsLeft(|Backlog(db, LeasePhase, locked)|, size, maxBatches, polls) == if ran < polls then polls - ran else 0
  {
    PhaseParts(db, LeasePhase, locked, size, Min(maxBatches, polls), middle, requeued, failed, ran);
  }

  lemma HungDone(db: Db, locked: set<TaskId>, size: nat, maxBatches: nat, polls: nat, middle: Db, left: nat, now: Db,
                 requeued: nat, failed: nat, hungRequeued: nat, hungFailed: nat, hungRan: nat)
    requires SweepHalf(db, locked, size, maxBatches, polls, middle, requeued, failed)
    requires left == PollsLeft(|Backlog(db, LeasePhase, locked)|, size, maxBatches, polls)
    requires PhaseDone(middle, HungPhase, locked, size, Min(maxBatches, left), now, hungRequeued, hungFailed, hungRan)
    ensures SweepDone(db, locked, size, maxBatches, polls, now, requeued, failed, hungRequeued, hungFailed)
  {
    PhaseParts(middle, HungPhase, locked, size, Min(maxBatches, left), now, hungRequeued, hungFailed, hungRan);
  }

  lemma NothingYet(db: Db, phase: Phase, locked: set<TaskId>, size: nat)
    ensures AfterBatches(db, phase, locked, size, 0, db, 0, 0)
  {
    assert Taken(db, phase, locked, size, 0) == [];
    assert Ids([]) == [];
  }

  // ---- what a sweep means ----------------------------------------------------------------------------------

  lemma TakenIsHead(db: Db, phase: Phase, locked: set<TaskId>, taken: seq<Due>)
    requires taken <= Backlog(db, phase, locked)
    ensures Increasing(taken, Earlier) && forall r <- taken :: r in DueRows(db, phase, locked)
    ensures forall r <- taken, other <- DueRows(db, phase, locked) | other !in taken :: Earlier(r, other)
    ensures DueRows(db, phase, locked) - Elements(taken) == {} <==> |taken| == |Backlog(db, phase, locked)|
  {
    var all := Backlog(db, phase, locked);
    BacklogFacts(db, phase, locked);
    HeadOfOrder(all, taken, DueRows(db, phase, locked));
  }

  lemma HeadOfOrder(all: seq<Due>, taken: seq<Due>, due: set<Due>)
    requires Increasing(all, Earlier) && Elements(all) == due && taken <= all
    ensures Increasing(taken, Earlier) && forall r <- taken :: r in due
    ensures forall r <- taken, other <- due | other !in taken :: Earlier(r, other)
    ensures due - Elements(taken) == {} <==> |taken| == |all|
  {
    forall r <- taken ensures r in due {
      assert r in all && r in Elements(all);
    }
    forall r, other | r in taken && other in due && other !in taken ensures Earlier(r, other) {
      assert other in all;
      var i :| 0 <= i < |taken| && taken[i] == r;
      var j :| 0 <= j < |all| && all[j] == other;
      assert all[i] == r && i < j;
    }
    NothingLeft(all, taken, due);
  }

  lemma NothingLeft(all: seq<Due>, taken: seq<Due>, due: set<Due>)
    requires Increasing(all, Earlier) && Elements(all) == due && taken <= all
    ensures due - Elements(taken) == {} <==> |taken| == |all|
  {
    if |taken| == |all| {
      assert taken == all;
    } else {
      var x := all[|taken|];
      assert x in Elements(all) && x !in taken;
      assert x in due - Elements(taken);
    }
  }

  /** A phase reclaims exactly min(due, size * batches) rows: the longest overdue ones, none with a live
      lease (or, hung, with time left). No row it could take is left iff that covers the backlog. */
  lemma SweepCompleteness(db: Db, phase: Phase, locked: set<TaskId>, size: nat, batches: nat)
    ensures var taken := Taken(db, phase, locked, size, batches); var due := DueRows(db, phase, locked);
      && |taken| == Min(|due|, size * batches)
      && Increasing(taken, Earlier) && (forall r <- taken :: r in due)
      && (forall r <- taken, other <- due | other !in taken :: Earlier(r, other))
    ensures var after := Drained(db, phase, locked, size, batches); var due := DueRows(db, phase, locked);
      && DueRows(after, phase, locked) == due - Elements(Taken(db, phase, locked, size, batches))
      && (DueRows(after, phase, locked) == {} <==> |due| <= size * batches)
  {
    var taken := Taken(db, phase, locked, size, batches);
    BacklogFacts(db, phase, locked);
    TakenIsHead(db, phase, locked, taken);
    DueAfterBatch(db, phase, locked, taken);
  }

  /** And it touches nothing else: each row taken is requeued or failed by its own budget, every other
      row stays as it was. */
  lemma SweepTouchesOnlyTaken(db: Db, phase: Phase, locked: set<TaskId>, size: nat, batches: nat)
    ensures var taken := Taken(db, phase, locked, size, batches); var after := Drained(db, phase, locked, size, batches);
      && after.tasks.Keys == db.tasks.Keys
      && (forall r <- taken :: r.id in db.tasks && after.tasks[r.id].state in {Queued, Failed})
      && (forall id | id in db.tasks && (forall r <- taken :: r.id != id) :: after.tasks[id] == db.tasks[id])
  {
    var taken := Taken(db, phase, locked, size, batches);
    TakenIsHead(db, phase, locked, taken);
    TakenRows(db, phase, locked, taken);
  }

  lemma TakenRows(db: Db, phase: Phase, locked: set<TaskId>, taken: seq<Due>)
    requires Increasing(taken, Earlier) && forall r <- taken :: r in DueRows(db, phase, locked)
    ensures var after := ReapAll(db, phase, Ids(taken));
      && after.tasks.Keys == db.tasks.Keys
      && (forall r <- taken :: r.id in db.tasks && after.tasks[r.id].state in {Queued, Failed})
      && (forall id | id in db.tasks && (forall r <- taken :: r.id != id) :: after.tasks[id] == db.tasks[id])
  {
    DistinctIds(db, phase, locked, taken);
    ReapAllEffect(db, phase, Ids(taken));
    forall r | r in taken ensures r.id in Ids(taken) {
      var i :| 0 <= i < |taken| && taken[i] == r;
      assert Ids(taken)[i] == r.id;
    }
    forall id | id in Ids(taken) ensures exists r :: r in taken && r.id == id {
      var i :| 0 <= i < |taken| && Ids(taken)[i] == id;
      assert taken[i] in taken;
    }
  }

  function Recoveries(phase: Phase, ids: seq<TaskId>): seq<Step> {
    seq(|ids|, i requires 0 <= i < |ids| => Recovery(phase, ids[i]))
  }

  lemma {:induction false} ReapAllIsRun(db: Db, phase: Phase, ids: seq<TaskId>)
    ensures ReapAll(db, phase, ids) == Run(db, Recoveries(phase, ids))
  {
    if ids == [] {
    } else {
      ReapAllIsRun(db, phase, ids[..|ids| - 1]);
      assert Recoveries(phase, ids)[..|ids| - 1] == Recoveries(phase, ids[..|ids| - 1]);
    }
  }
}
