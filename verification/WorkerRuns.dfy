/** One worker among everybody else: what its bookkeeping keeps over whole runs, and what a drain leaves. */
module WorkerRuns {
  import opened Wrappers
  import opened Orders
  import opened States
  import opened Tables
  import opened Transitions
  import opened Completion
  import opened Claim
  import opened Rounds
  import opened Grants
  import opened Tasks
  import opened Finalize
  import opened Ledger
  import opened Protocol
  import opened Moves
  import opened WorkerLoop

  // ---- the worker among others -------------------------------------------------------------------------------

  datatype Move =
    | Elsewhere(step: Step)
    | Claims(limit: nat, ttl: nat, caps: seq<string>, locked: set<TaskId>, rounds: nat)
    | Renews(flight: Flight, ttl: nat)
    | Ends(report: Report)
    | Harvests

  /** Worker ids are fresh per process start, so nobody else presents this one. */
  predicate Foreign(s: Step, worker: WorkerId) {
    match s
    case Claiming(w, _, _, _, _, _) => w != worker
    case Renewal(_, _, w, _) => w != worker
    case Finishing(_, _, w, _, _, _, _) => w != worker
    case HandBack(_, _, w, _) => w != worker
    case _ => true
  }

  predicate Possible(s: Site, worker: WorkerId, m: Move) {
    match m
    case Elsewhere(step) => Foreign(step, worker)
    case Renews(f, _) => f in s.local.inflight - s.local.done && f !in s.local.quit
    case Ends(r) => r.flight in s.local.inflight - s.local.done
    case _ => true
  }

  function RenewedSite(s: Site, worker: WorkerId, f: Flight, ttl: nat): Site {
    var (after, answer) := Renew(s.db, f.task, f.attempt, worker, ttl);
    Site(after, Renewed(s.local, f, answer))
  }

  function Advance(s: Site, worker: WorkerId, m: Move): Site {
    match m
    case Elsewhere(step) => Site(Apply(s.db, step), s.local)
    case Claims(limit, ttl, caps, locked, rounds) =>
      ClaimedSite(s, worker, limit, ttl, caps, locked, rounds)
    case Renews(f, ttl) => RenewedSite(s, worker, f, ttl)
    case Ends(r) => Site(Finalized(s.db, worker, r.flight in s.local.cancelled, r), Ended(s.local, r.flight))
    case Harvests => Site(s.db, Harvested(s.local))
  }

  function Journey(s: Site, worker: WorkerId, moves: seq<Move>): Site {
    if moves == [] then s else Advance(Journey(s, worker, moves[..|moves| - 1]), worker, moves[|moves| - 1])
  }

  /** Every attempt this process remembers was claimed, and every task RUNNING under its id is being run
      by one of its live attempts. */
  ghost predicate Attended(s: Site, worker: WorkerId) {
    && Known(s.db, s.local.inflight + s.local.done)
    && (forall id: TaskId, n: nat | Holds(s.db, id, n, worker) :: Flight(id, n) in s.local.inflight - s.local.done)
  }

  /** Every task RUNNING under this worker's id is listed for hand-back under its attempt. */
  ghost predicate Tracked(s: Site, worker: WorkerId) {
    forall id: TaskId, n: nat | Holds(s.db, id, n, worker) :: id in s.local.owned && s.local.owned[id] == n
  }

  // ---- tenures across a move ------------------------------------------------------------------------------------

  lemma MovedElsewhere(db: Db, s: Step, worker: WorkerId, id: TaskId, t': Task)
    requires id in db.tasks && Foreign(s, worker) && Moved(db, s, id, db.tasks[id], t')
    requires t'.state == Running && t'.leaseWorker == Some(worker)
    ensures db.tasks[id].state == Running && db.tasks[id].leaseWorker == Some(worker) && db.tasks[id].attempt == t'.attempt
  {}

  lemma ElsewhereHolds(db: Db, s: Step, worker: WorkerId, id: TaskId, n: nat)
    requires Coherent(db) && Foreign(s, worker) && Holds(Apply(db, s), id, n, worker)
    ensures Holds(db, id, n, worker)
  {
    StepMoves(db, s);
    StepsAreLegal(db, s, id);
    if Apply(db, s).tasks[id] != db.tasks[id] {
      MovedElsewhere(db, s, worker, id, Apply(db, s).tasks[id]);
    }
  }

  lemma AttemptsGrow(db: Db, after: Db, f: Flight)
    requires Forward(db, after) && f.task in db.tasks && f.attempt <= db.tasks[f.task].attempt
    ensures f.task in after.tasks && f.attempt <= after.tasks[f.task].attempt
  {}

  function TasksOf(flights: seq<Flight>): set<TaskId> {
    set f | f in flights :: f.task
  }

  lemma {:induction false} DispatchedFacts(l: Local, flights: seq<Flight>)
    ensures var m := Dispatched(l, flights);
      && m.inflight == l.inflight + Elements(flights) && m.done == l.done
      && m.owned.Keys == l.owned.Keys + TasksOf(flights)
      && (forall id <- l.owned | id !in TasksOf(flights) :: m.owned[id] == l.owned[id])
  {
    if flights == [] {
    } else {
      var front, last := flights[..|flights| - 1], flights[|flights| - 1];
      DispatchedFacts(l, front);
      FrontAndLast(flights);
      assert TasksOf(flights) == TasksOf(front) + {last.task};
    }
  }

  lemma {:induction false} DispatchedOwned(l: Local, flights: seq<Flight>, i: nat)
    requires i < |flights| && forall j | i < j < |flights| :: flights[j].task != flights[i].task
    ensures var f := flights[i]; f.task in Dispatched(l, flights).owned && Dispatched(l, flights).owned[f.task] == f.attempt
  {
    if i < |flights| - 1 {
      DispatchedOwned(l, flights[..|flights| - 1], i);
    }
  }

  /** What a claim gives this worker, and what it leaves. */
  lemma ClaimHolds(db: Db, worker: WorkerId, limit: nat, ttl: nat, caps: seq<string>, locked: set<TaskId>, rounds: nat)
    requires Coherent(db)
    ensures var ids := ClaimWithin(db, caps, limit, locked, rounds); var after := ClaimTo(db, worker, limit, ttl, caps, locked, rounds);
      && Coherent(after) && Forward(db, after) && !Duplicate(db, ids) && Distinct(ids)
      && (forall id <- ids :: id in db.tasks && id in after.tasks && after.tasks[id].attempt == db.tasks[id].attempt + 1
                              && Holds(after, id, after.tasks[id].attempt, worker))
      && (forall id: TaskId, n: nat | id !in ids && Holds(after, id, n, worker) :: Holds(db, id, n, worker))
  {
    var ids := ClaimWithin(db, caps, limit, locked, rounds);
    ClaimCoherent(db, worker, limit, ttl, caps, locked, rounds);
    NoDuplicates(db, ids);
    GrantAllEffect(db, ids, worker, ttl);
  }

  lemma FinalizedShape(db: Db, worker: WorkerId, cancelled: bool, r: Report)
    ensures var f := r.flight; var e := EndingFor(r.run, cancelled, f.attempt, MaxAttemptsOf(db, f.task), r.u, r.v);
      if Holds(db, f.task, f.attempt, worker)
      then Finalized(db, worker, cancelled, r) == Complete(db, f.task, f.attempt, worker, e).0
           && Finalized(db, worker, cancelled, r).tasks == db.tasks[f.task := EndedRow(db.tasks[f.task], e, db.now)]
      else Finalized(db, worker, cancelled, r) == Recorded(db, f.task, StaleWriteRejected, Some(f.attempt), Some(worker))
           && Finalized(db, worker, cancelled, r).tasks == db.tasks
  {
    var f := r.flight;
    CompleteMoves(db, f.task, f.attempt, worker, EndingFor(r.run, cancelled, f.attempt, MaxAttemptsOf(db, f.task), r.u, r.v));
  }

  lemma FinalizedCoherent(db: Db, worker: WorkerId, cancelled: bool, r: Report)
    requires Coherent(db)
    ensures Coherent(Finalized(db, worker, cancelled, r)) && Forward(db, Finalized(db, worker, cancelled, r))
  {
    var f := r.flight;
    FinalizedShape(db, worker, cancelled, r);
    if Holds(db, f.task, f.attempt, worker) {
      RetryWithinBudget(r.run, cancelled, f.attempt, MaxAttemptsOf(db, f.task), r.u, r.v);
      CompleteCoherent(db, f.task, f.attempt, worker,
                       EndingFor(r.run, cancelled, f.attempt, MaxAttemptsOf(db, f.task), r.u, r.v));
    } else {
      NoteCoherent(db, f.task, StaleWriteRejected, Some(f.attempt), Some(worker));
    }
  }

  /** Reporting an attempt ends that tenure if it was live, and touches no other. */
  lemma FinalizedHolds(db: Db, worker: WorkerId, cancelled: bool, r: Report)
    ensures forall id: TaskId, n: nat :: Holds(Finalized(db, worker, cancelled, r), id, n, worker) <==>
              Holds(db, id, n, worker) && Flight(id, n) != r.flight
  {
    FinalizedShape(db, worker, cancelled, r);
  }

  lemma RenewHolds(db: Db, f: Flight, worker: WorkerId, ttl: nat, id: TaskId, n: nat)
    ensures Holds(Renew(db, f.task, f.attempt, worker, ttl).0, id, n, worker) <==> Holds(db, id, n, worker)
  {}

  // ---- the bookkeeping over a run ----------------------------------------------------------------------------------

  lemma ElsewhereAttended(s: Site, worker: WorkerId, step: Step)
    requires Coherent(s.db) && Attended(s, worker) && Foreign(step, worker)
    ensures var t := Site(Apply(s.db, step), s.local); Coherent(t.db) && Attended(t, worker) && (Tracked(s, worker) ==> Tracked(t, worker))
  {
    StepCoherent(s.db, step);
    var after := Apply(s.db, step);
    StillKnown(s.db, after, s.local.inflight + s.local.done);
    forall id: TaskId, n: nat | Holds(after, id, n, worker) ensures Holds(s.db, id, n, worker) {
      ElsewhereHolds(s.db, step, worker, id, n);
    }
  }

  /** Nothing about tenures, flights and entries changed. */
  lemma SameBooks(s: Site, t: Site, worker: WorkerId)
    requires Attended(s, worker) && Forward(s.db, t.db)
    requires t.local.inflight == s.local.inflight && t.local.done == s.local.done && t.local.owned == s.local.owned
    requires forall id: TaskId, n: nat | Holds(t.db, id, n, worker) :: Holds(s.db, id, n, worker)
    ensures Attended(t, worker) && (Tracked(s, worker) ==> Tracked(t, worker))
  {
    StillKnown(s.db, t.db, s.local.inflight + s.local.done);
  }

  lemma RenewedBooks(s: Site, worker: WorkerId, f: Flight, ttl: nat)
    ensures var t := RenewedSite(s, worker, f, ttl);
      && t.db == Renew(s.db, f.task, f.attempt, worker, ttl).0
      && t.local.inflight == s.local.inflight && t.local.done == s.local.done && t.local.owned == s.local.owned
  {}

  lemma RenewedHolds(db: Db, worker: WorkerId, f: Flight, ttl: nat)
    ensures forall id: TaskId, n: nat :: Holds(Renew(db, f.task, f.attempt, worker, ttl).0, id, n, worker) <==> Holds(db, id, n, worker)
  {
    forall id: TaskId, n: nat { RenewHolds(db, f, worker, ttl, id, n); }
  }

  lemma RenewAttended(s: Site, worker: WorkerId, f: Flight, ttl: nat)
    requires Coherent(s.db) && Attended(s, worker)
    ensures var t := RenewedSite(s, worker, f, ttl);
            Coherent(t.db) && Attended(t, worker) && (Tracked(s, worker) ==> Tracked(t, worker))
  {
    RenewCoherent(s.db, f.task, f.attempt, worker, ttl);
    RenewedBooks(s, worker, f, ttl);
    RenewedHolds(s.db, worker, f, ttl);
    SameBooks(s, RenewedSite(s, worker, f, ttl), worker);
  }

  /** Every flight this process remembers is of a claimed attempt. */
  ghost predicate Known(db: Db, flights: set<Flight>) {
    forall f <- flights :: f.task in db.tasks && f.attempt <= db.tasks[f.task].attempt
  }

  lemma StillKnown(db: Db, after: Db, flights: set<Flight>)
    requires Known(db, flights) && Forward(db, after)
    ensures Known(after, flights)
  {
    forall f | f in flights ensures f.task in after.tasks && f.attempt <= after.tasks[f.task].attempt { AttemptsGrow(db, after, f); }
  }

  /** The flights of a claim: known and new. */
  lemma FlightsAreNew(db: Db, after: Db, ids: seq<TaskId>, done: set<Flight>)
    requires Known(db, done)
    requires forall id <- ids :: id in db.tasks && id in after.tasks && after.tasks[id].attempt == db.tasks[id].attempt + 1
    ensures var flights := FlightsOf(after, ids);
      Known(after, Elements(flights)) && Elements(flights) !! done && TasksOf(flights) == Elements(ids)
  {
    var flights := FlightsOf(after, ids);
    forall i | 0 <= i < |ids|
      ensures ids[i] in after.tasks && flights[i] == Flight(ids[i], after.tasks[ids[i]].attempt) && flights[i] !in done
    {
      assert ids[i] in ids;
    }
    forall id | id in ids ensures id in TasksOf(flights) {
      var i :| 0 <= i < |ids| && ids[i] == id;
      assert flights[i] in flights;
    }
  }

  lemma ClaimedLocal(s: Site, worker: WorkerId, limit: nat, ttl: nat, caps: seq<string>, locked: set<TaskId>, rounds: nat)
    requires !Duplicate(s.db, ClaimWithin(s.db, caps, limit, locked, rounds))
    ensures var t := ClaimedSite(s, worker, limit, ttl, caps, locked, rounds);
            t.db == ClaimTo(s.db, worker, limit, ttl, caps, locked, rounds)
            && t.local == Dispatched(s.local, FlightsOf(t.db, ClaimWithin(s.db, caps, limit, locked, rounds)))
  {}

  /** The entry and the flight of one claimed id. */
  lemma EntryOf(l: Local, db: Db, ids: seq<TaskId>, id: TaskId)
    requires Distinct(ids) && id in ids && id in db.tasks
    ensures var m := Dispatched(l, FlightsOf(db, ids));
      && id in m.owned && m.owned[id] == db.tasks[id].attempt
      && Flight(id, db.tasks[id].attempt) in Elements(FlightsOf(db, ids))
  {
    var flights := FlightsOf(db, ids);
    var i :| 0 <= i < |ids| && ids[i] == id;
    assert flights[i] == Flight(id, db.tasks[id].attempt);
    DispatchedOwned(l, flights, i);
  }

  lemma ClaimAttended(s: Site, worker: WorkerId, limit: nat, ttl: nat, caps: seq<string>, locked: set<TaskId>, rounds: nat)
    requires Coherent(s.db) && Attended(s, worker)
    ensures var t := ClaimedSite(s, worker, limit, ttl, caps, locked, rounds);
            Coherent(t.db) && Attended(t, worker) && (Tracked(s, worker) ==> Tracked(t, worker))
  {
    var ids := ClaimWithin(s.db, caps, limit, locked, rounds);
    var t := ClaimedSite(s, worker, limit, ttl, caps, locked, rounds);
    ClaimHolds(s.db, worker, limit, ttl, caps, locked, rounds);
    ClaimedLocal(s, worker, limit, ttl, caps, locked, rounds);
    FlightsAreNew(s.db, t.db, ids, s.local.inflight + s.local.done);
    DispatchedFacts(s.local, FlightsOf(t.db, ids));
    StillKnown(s.db, t.db, s.local.inflight + s.local.done);
    assert Known(t.db, t.local.inflight + t.local.done);
    forall id: TaskId, n: nat | Holds(t.db, id, n, worker)
      ensures Flight(id, n) in t.local.inflight - t.local.done
      ensures Tracked(s, worker) ==> id in t.local.owned && t.local.owned[id] == n
    {
      if id in ids {
        EntryOf(s.local, t.db, ids, id);
      } else {
        assert Holds(s.db, id, n, worker);
      }
    }
  }

  /** Reporting an attempt drops the task's entry, whichever attempt the entry is for. */
  lemma EndsAttended(s: Site, worker: WorkerId, r: Report)
    requires Coherent(s.db) && Attended(s, worker) && r.flight in s.local.inflight
    ensures var t := Site(Finalized(s.db, worker, r.flight in s.local.cancelled, r), Ended(s.local, r.flight));
            Coherent(t.db) && Attended(t, worker)
  {
    FinalizedCoherent(s.db, worker, r.flight in s.local.cancelled, r);
    FinalizedHolds(s.db, worker, r.flight in s.local.cancelled, r);
    StillAttended(s, Finalized(s.db, worker, r.flight in s.local.cancelled, r), worker, r.flight);
  }

  lemma StillAttended(s: Site, after: Db, worker: WorkerId, f: Flight)
    requires Attended(s, worker) && Forward(s.db, after) && f in s.local.inflight
    requires forall id: TaskId, n: nat | Holds(after, id, n, worker) :: Holds(s.db, id, n, worker) && Flight(id, n) != f
    ensures Attended(Site(after, Ended(s.local, f)), worker)
  {
    StillKnown(s.db, after, s.local.inflight + s.local.done);
    assert Ended(s.local, f).inflight + Ended(s.local, f).done == s.local.inflight + s.local.done;
  }

  lemma EndsTracked(s: Site, worker: WorkerId, r: Report)
    requires Tracked(s, worker)
    ensures Tracked(Site(Finalized(s.db, worker, r.flight in s.local.cancelled, r), Ended(s.local, r.flight)), worker) <==>
            forall n: nat | n != r.flight.attempt :: !Holds(s.db, r.flight.task, n, worker)
  {
    var t := Site(Finalized(s.db, worker, r.flight in s.local.cancelled, r), Ended(s.local, r.flight));
    FinalizedHolds(s.db, worker, r.flight in s.local.cancelled, r);
    if n: nat :| n != r.flight.attempt && Holds(s.db, r.flight.task, n, worker) {
      assert Holds(t.db, r.flight.task, n, worker);
    }
  }

  /** The exact fault of `self._owned.pop(task_id)`: among everything that can happen, hand-back tracking
      is lost precisely when an attempt ends while this worker already runs a newer attempt of the same
      task. */
  lemma TrackingLostIff(s: Site, worker: WorkerId, m: Move)
    requires Coherent(s.db) && Attended(s, worker) && Tracked(s, worker) && Possible(s, worker, m)
    ensures Coherent(Advance(s, worker, m).db) && Attended(Advance(s, worker, m), worker)
    ensures Tracked(Advance(s, worker, m), worker) <==> !Overlaps(s, worker, m)
  {
    MoveAttended(s, worker, m);
  }

  /** The attempt that ends is not the one this worker holds its task under. */
  ghost predicate Overlaps(s: Site, worker: WorkerId, m: Move) {
    m.Ends? && exists n: nat | n != m.report.flight.attempt :: Holds(s.db, m.report.flight.task, n, worker)
  }

  lemma MoveAttended(s: Site, worker: WorkerId, m: Move)
    requires Coherent(s.db) && Attended(s, worker) && Possible(s, worker, m)
    ensures Coherent(Advance(s, worker, m).db) && Attended(Advance(s, worker, m), worker)
    ensures Tracked(s, worker) ==> (Tracked(Advance(s, worker, m), worker) <==> !Overlaps(s, worker, m))
  {
    match m
    case Elsewhere(step) => ElsewhereAttended(s, worker, step);
    case Claims(limit, ttl, caps, locked, rounds) => ClaimAttended(s, worker, limit, ttl, caps, locked, rounds);
    case Renews(f, ttl) => RenewAttended(s, worker, f, ttl);
    case Ends(r) => {
      EndsAttended(s, worker, r);
      if Tracked(s, worker) { EndsTracked(s, worker, r); }
    }
    case Harvests =>
  }

  // ---- the drain ---------------------------------------------------------------------------------------------------

  lemma {:induction false} AbandonAllFacts(db: Db, worker: WorkerId, owned: map<TaskId, nat>, ids: seq<TaskId>)
    requires forall id <- ids :: id in owned
    ensures var after := AbandonAll(db, worker, owned, ids);
      && after.tasks.Keys == db.tasks.Keys
      && (forall id: TaskId, n: nat :: Holds(after, id, n, worker) <==> Holds(db, id, n, worker) && !(id in ids && owned[id] == n))
      && (forall id <- db.tasks :: !(id in ids && Holds(db, id, owned[id], worker)) ==> after.tasks[id] == db.tasks[id])
  {
    if ids == [] {
    } else {
      var front, last := ids[..|ids| - 1], ids[|ids| - 1];
      FrontAndLast(ids);
      AbandonAllFacts(db, worker, owned, front);
      AbandonOne(AbandonAll(db, worker, owned, front), last, owned[last], worker);
    }
  }

  lemma AbandonOne(db: Db, task: TaskId, attempt: nat, worker: WorkerId)
    ensures var after := Complete(db, task, attempt, worker, Abandon(SHUTDOWN)).0;
      && after.tasks.Keys == db.tasks.Keys
      && (forall id: TaskId, n: nat :: Holds(after, id, n, worker) <==> Holds(db, id, n, worker) && !(id == task && n == attempt))
      && (forall id <- db.tasks :: !(id == task && Holds(db, task, attempt, worker)) ==> after.tasks[id] == db.tasks[id])
  {
    CompleteMoves(db, task, attempt, worker, Abandon(SHUTDOWN));
  }

  /** What a drain hands back: exactly the tasks listed under the attempt they are RUNNING with. No task
      another worker holds, and no task listed under a stale attempt, is touched. */
  lemma DrainFacts(db: Db, worker: WorkerId, l: Local)
    ensures var after := Drained(db, worker, l);
      && after.tasks.Keys == db.tasks.Keys
      && (forall id: TaskId, n: nat :: Holds(after, id, n, worker) <==> Holds(db, id, n, worker) && !(id in l.owned && l.owned[id] == n))
      && (forall id <- db.tasks :: !(id in l.owned && Holds(db, id, l.owned[id], worker)) ==> after.tasks[id] == db.tasks[id])
  {
    InOrderFacts(l.owned.Keys);
    AbandonAllFacts(db, worker, l.owned, InOrder(l.owned.Keys));
  }

  /** After a drain no task is RUNNING under this worker's id exactly when every such task was tracked. */
  lemma DrainEmptiesIff(s: Site, worker: WorkerId)
    ensures (forall id: TaskId, n: nat :: !Holds(Drained(s.db, worker, s.local), id, n, worker)) <==> Tracked(s, worker)
  {
    DrainFacts(s.db, worker, s.local);
  }

  /** A run of this worker in which everything it does is possible and no attempt ends under a newer one. */
  ghost predicate Smooth(s: Site, worker: WorkerId, moves: seq<Move>) {
    moves != [] ==>
      var before, last := Journey(s, worker, moves[..|moves| - 1]), moves[|moves| - 1];
      Smooth(s, worker, moves[..|moves| - 1]) && Possible(before, worker, last) && !Overlaps(before, worker, last)
  }

  lemma {:induction false} JourneyTracked(s: Site, worker: WorkerId, moves: seq<Move>)
    requires Coherent(s.db) && Attended(s, worker) && Tracked(s, worker) && Smooth(s, worker, moves)
    ensures var t := Journey(s, worker, moves); Coherent(t.db) && Attended(t, worker) && Tracked(t, worker)
  {
    if moves == [] {
    } else {
      JourneyTracked(s, worker, moves[..|moves| - 1]);
      TrackingLostIff(Journey(s, worker, moves[..|moves| - 1]), worker, moves[|moves| - 1]);
    }
  }

  /** Graceful shutdown. A process that starts with a fresh id and whose runs never overlap leaves, after
      a drain that was not fenced, no task RUNNING under its id, and no other worker's task changed. */
  lemma GracefulShutdown(db: Db, worker: WorkerId, moves: seq<Move>)
    requires Coherent(db) && forall id <- db.tasks :: db.tasks[id].leaseWorker != Some(worker)
    requires Smooth(Site(db, FRESH), worker, moves)
    ensures var s := Journey(Site(db, FRESH), worker, moves); var after := Drained(s.db, worker, s.local);
      && (forall id: TaskId, n: nat :: !Holds(after, id, n, worker))
      && (forall id <- s.db.tasks :: s.db.tasks[id].leaseWorker != Some(worker) ==> id in after.tasks && after.tasks[id] == s.db.tasks[id])
  {
    var start := Site(db, FRESH);
    JourneyTracked(start, worker, moves);
    var s := Journey(start, worker, moves);
    DrainEmptiesIff(s, worker);
    DrainFacts(s.db, worker, s.local);
  }

  /** An attempt that ends under a newer one of the same task leaves the newer one RUNNING after the drain. */
  lemma NewerIsOrphaned(s: Site, worker: WorkerId, r: Report, n: nat)
    requires n != r.flight.attempt && Holds(s.db, r.flight.task, n, worker)
    ensures Holds(Drained(Finalized(s.db, worker, r.flight in s.local.cancelled, r), worker, Ended(s.local, r.flight)),
                  r.flight.task, n, worker)
  {
    FinalizedHolds(s.db, worker, r.flight in s.local.cancelled, r);
    DrainFacts(Finalized(s.db, worker, r.flight in s.local.cancelled, r), worker, Ended(s.local, r.flight));
  }

  lemma ClaimKeepsFlights(s: Site, worker: WorkerId, limit: nat, ttl: nat, caps: seq<string>, locked: set<TaskId>, rounds: nat)
    ensures var t := ClaimedSite(s, worker, limit, ttl, caps, locked, rounds);
            s.local.inflight <= t.local.inflight && t.local.done == s.local.done
  {
    var ids := ClaimWithin(s.db, caps, limit, locked, rounds);
    var after := ClaimTo(s.db, worker, limit, ttl, caps, locked, rounds);
    DispatchedFacts(s.local, FlightsOf(after, if Duplicate(s.db, ids) then [] else ids));
  }

  lemma ClaimOrphans(s: Site, worker: WorkerId, r: Report, limit: nat, ttl: nat, caps: seq<string>, locked: set<TaskId>, rounds: nat)
    requires Coherent(s.db) && Attended(s, worker) && r.flight in s.local.inflight
    requires r.flight.task in ClaimWithin(s.db, caps, limit, locked, rounds)
    ensures r.flight.task in s.db.tasks
    ensures var claimed := ClaimedSite(s, worker, limit, ttl, caps, locked, rounds);
      Holds(Drained(Finalized(claimed.db, worker, r.flight in claimed.local.cancelled, r), worker, Ended(claimed.local, r.flight)),
            r.flight.task, s.db.tasks[r.flight.task].attempt + 1, worker)
  {
    ClaimHolds(s.db, worker, limit, ttl, caps, locked, rounds);
    NewerIsOrphaned(ClaimedSite(s, worker, limit, ttl, caps, locked, rounds), worker, r, s.db.tasks[r.flight.task].attempt + 1);
  }

  /** How the shutdown fails: the worker loses a lease, claims the same task again while its older attempt
      is still running, and that attempt then reports. The entry of the newer attempt is gone, so the
      drain leaves the task RUNNING under a worker that no longer exists. */
  lemma SelfReclaimOrphans(s: Site, worker: WorkerId, r: Report, limit: nat, ttl: nat, caps: seq<string>, locked: set<TaskId>,
                           rounds: nat)
    requires Coherent(s.db) && Attended(s, worker) && r.flight in s.local.inflight - s.local.done
    requires r.flight.task in ClaimWithin(s.db, caps, limit, locked, rounds)
    ensures var claimed := Advance(s, worker, Claims(limit, ttl, caps, locked, rounds));
            var ended := Advance(claimed, worker, Ends(r));
      && Possible(claimed, worker, Ends(r))
      && Holds(Drained(ended.db, worker, ended.local), r.flight.task, s.db.tasks[r.flight.task].attempt + 1, worker)
  {
    ClaimOrphans(s, worker, r, limit, ttl, caps, locked, rounds);
    ClaimKeepsFlights(s, worker, limit, ttl, caps, locked, rounds);
  }
}
