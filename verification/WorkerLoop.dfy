/** src/acp/worker/loop.py: capacity, ownership and drain of one worker process. */
module WorkerLoop {
  import opened Wrappers
  import opened Orders
  import opened States
  import opened Tables
  import opened Transitions
  import opened Completion
  import opened Claim
  import opened Rounds
  import opened Grants
  import opened Tasks
  import opened Finalize
  import opened Protocol
  import R = Retry

  // One attempt running in this process. It starts together with its dispatch.
  datatype Flight = Flight(task: TaskId, attempt: nat)

  // How an attempt came out: what the adapter gave, and the random draws.
  datatype Report = Report(flight: Flight, run: RunOutcome, u: R.Unit, v: R.Unit)

  // What the process remembers. `done` are attempts whose coroutine has ended but is not harvested yet,
  // `cancelled` those whose cancel event is set, `quit` those whose renewal loop has returned.
  datatype Local = Local(
    inflight: set<Flight>, done: set<Flight>, owned: map<TaskId, nat>, cancelled: set<Flight>, quit: set<Flight>,
    fenced: bool, stopping: bool)

  const FRESH: Local := Local({}, {}, map[], {}, {}, false, false)

  /** One turn of `_renew_until_stopped`: a refusal and a cancel request set the same event, and a refusal
      also ends the renewals. */
  function Renewed(l: Local, f: Flight, answer: Option<bool>): Local {
    if answer.None? then l.(cancelled := l.cancelled + {f}, quit := l.quit + {f})
    else if answer.value then l.(cancelled := l.cancelled + {f})
    else l
  }

  function FlightsOf(db: Db, ids: seq<TaskId>): seq<Flight> {
    seq(|ids|, i requires 0 <= i < |ids| => Flight(ids[i], if ids[i] in db.tasks then db.tasks[ids[i]].attempt else 0))
  }

  function Dispatched(l: Local, flights: seq<Flight>): Local {
    if flights == [] then l else
      var m, f := Dispatched(l, flights[..|flights| - 1]), flights[|flights| - 1];
      m.(inflight := m.inflight + {f}, owned := m.owned[f.task := f.attempt])
  }

  /** `_run_attempt` after `_finalize`, applied or not: the entry goes by task id alone. */
  function Ended(l: Local, f: Flight): Local {
    l.(done := l.done + {f}, owned := l.owned - {f.task})
  }

  function Harvested(l: Local): Local {
    l.(inflight := l.inflight - l.done, done := {})
  }

  /** `_finalize`: the ending, and a record of the rejection when the fence refused it. */
  function Finalized(db: Db, worker: WorkerId, cancelled: bool, r: Report): Db {
    var (after, res) :=
      Complete(db, r.flight.task, r.flight.attempt, worker,
               EndingFor(r.run, cancelled, r.flight.attempt, MaxAttemptsOf(db, r.flight.task), r.u, r.v));
    if res.Applied? then after
    else Recorded(after, r.flight.task, StaleWriteRejected, Some(r.flight.attempt), Some(worker))
  }

  const SHUTDOWN: string := "worker_shutdown"

  /** The hand-back loop of `_drain`. */
  function AbandonAll(db: Db, worker: WorkerId, owned: map<TaskId, nat>, ids: seq<TaskId>): Db {
    if ids == [] then db else
      var before, id := AbandonAll(db, worker, owned, ids[..|ids| - 1]), ids[|ids| - 1];
      Complete(before, id, if id in owned then owned[id] else 0, worker, Abandon(SHUTDOWN)).0
  }

  function Drained(db: Db, worker: WorkerId, l: Local): Db {
    AbandonAll(db, worker, l.owned, InOrder(l.owned.Keys))
  }

  // The database and the process side by side.
  datatype Site = Site(db: Db, local: Local)

  function ClaimedSite(s: Site, worker: WorkerId, limit: nat, ttl: nat, caps: seq<string>, locked: set<TaskId>, rounds: nat): Site {
    var ids := ClaimWithin(s.db, caps, limit, locked, rounds);
    var after := ClaimTo(s.db, worker, limit, ttl, caps, locked, rounds);
    Site(after, Dispatched(s.local, FlightsOf(after, if Duplicate(s.db, ids) then [] else ids)))
  }

  /** A claim into so many free places, at most `batch` at a time. */
  function FilledSite(s: Site, worker: WorkerId, free: int, batch: nat, ttl: nat, caps: seq<string>, locked: set<TaskId>,
                      rounds: nat): Site
  {
    if free <= 0 then s else ClaimedSite(s, worker, Min(free, batch), ttl, caps, locked, rounds)
  }

  /** The working half of a turn, with so many places free. */
  function WorkedSite(s: Site, worker: WorkerId, free: int, batch: nat, ttl: nat, caps: seq<string>, locked: set<TaskId>,
                      rounds: nat): Site
  {
    var filled := FilledSite(s, worker, free, batch, ttl, caps, locked, rounds);
    Site(filled.db, Harvested(filled.local))
  }

  class Worker {
    const id: WorkerId
    const capacity: nat
    const claimBatch: nat
    const leaseTtl: nat
    const capabilities: seq<string>
    var inflight: set<Flight>
    var done: set<Flight>
    var owned: map<TaskId, nat>
    var cancelled: set<Flight>
    var quit: set<Flight>
    var fenced: bool
    var stopping: bool

    constructor (id: WorkerId, capacity: nat, claimBatch: nat, leaseTtl: nat, capabilities: seq<string>)
      ensures this.id == id && this.capacity == capacity && this.claimBatch == claimBatch
      ensures this.leaseTtl == leaseTtl && this.capabilities == capabilities
      ensures Memory() == FRESH && Valid()
    {
      this.id, this.capacity, this.claimBatch, this.leaseTtl := id, capacity, claimBatch, leaseTtl;
      this.capabilities := capabilities;
      inflight, done, owned, cancelled, quit, fenced, stopping := {}, {}, map[], {}, {}, false, false;
    }

    function Memory(): Local
      reads this
    {
      Local(inflight, done, owned, cancelled, quit, fenced, stopping)
    }

    /** Places free, `capacity - len(self._inflight)`. */
    function Room(l: Local): int {
      capacity - |l.inflight|
    }

    /** Never more attempts than `capacity`, harvested or not. */
    predicate Valid()
      reads this
    {
      |inflight| <= capacity && done <= inflight
    }

    /** `stop`. */
    method Stop()
      modifies this`stopping
      ensures stopping
    {
      stopping := true;
    }

    /** `_maybe_heartbeat`: `answer` is missing when none was due, and false when the control plane has
        declared this worker dead. */
    method MaybeHeartbeat(answer: Option<bool>)
      modifies this`fenced, this`stopping
      ensures fenced == (old(fenced) || answer == Some(false)) && stopping == (old(stopping) || answer == Some(false))
    {
      if answer.Some? && !answer.value {
        fenced := true;
        stopping := true;
      }
    }

    /** `_claim_and_dispatch`. */
    method ClaimAndDispatch(conn: Connection, limit: nat, locked: set<TaskId>)
      requires Valid() && |inflight| + limit <= capacity
      modifies this`inflight, this`owned, conn
      ensures Valid()
      ensures Site(conn.Snapshot(), Memory()) ==
              ClaimedSite(Site(old(conn.Snapshot()), old(Memory())), id, Min(limit, claimBatch), leaseTtl, capabilities, locked, MAX_ROUNDS)
    {
      ClaimGuarantee(conn.Snapshot(), capabilities, Min(limit, claimBatch), locked, MAX_ROUNDS);
      var claimed, rows := ClaimTasks(conn, id, Min(limit, claimBatch), leaseTtl, capabilities, locked);
      Dispatch(claimed, rows, conn.Snapshot());
    }

    /** The dispatch loop: every claimed row becomes an attempt of this process. */
    method Dispatch(claimed: seq<TaskId>, rows: seq<Task>, ghost db: Db)
      requires Valid() && |inflight| + |claimed| <= capacity
      requires |rows| == |claimed| && forall i | 0 <= i < |claimed| :: claimed[i] in db.tasks && rows[i] == db.tasks[claimed[i]]
      modifies this`inflight, this`owned
      ensures Valid() && Memory() == Dispatched(old(Memory()), FlightsOf(db, claimed))
    {
      ghost var before, flights := Memory(), FlightsOf(db, claimed);
      assert flights[..0] == [];
      for i := 0 to |claimed|
        invariant Memory() == Dispatched(before, flights[..i])
        invariant |inflight| <= |before.inflight| + i && done <= inflight
      {
        assert flights[..i + 1][..i] == flights[..i] && flights[..i + 1][i] == flights[i];
        inflight := inflight + {Flight(claimed[i], rows[i].attempt)};
        owned := owned[claimed[i] := rows[i].attempt];
      }
      assert flights[..|claimed|] == flights;
    }

    /** `_harvest`. */
    method Harvest()
      requires Valid()
      modifies this`inflight, this`done
      ensures Valid() && Memory() == Harvested(old(Memory()))
    {
      SubsetSize(inflight - done, inflight);
      inflight := inflight - done;
      done := {};
    }

    /** The working half of a turn: claim into the free capacity, then harvest. */
    method Work(conn: Connection, locked: set<TaskId>)
      requires Valid()
      modifies this`inflight, this`done, this`owned, conn
      ensures Valid()
      ensures var s := Site(old(conn.Snapshot()), old(Memory()));
              Site(conn.Snapshot(), Memory()) == WorkedSite(s, id, Room(s.local), claimBatch, leaseTtl, capabilities, locked, MAX_ROUNDS)
    {
      var free := capacity - |inflight|;
      if free > 0 {
        ClaimAndDispatch(conn, free, locked);
      }
      Harvest();
    }

    /** One turn of `run_forever`: heartbeat, re-check, work. */
    method Turn(conn: Connection, answer: Option<bool>, locked: set<TaskId>)
      requires Valid()
      modifies this, conn
      ensures Valid()
      ensures old(stopping) || answer == Some(false) ==>
                conn.Snapshot() == old(conn.Snapshot()) && inflight == old(inflight) && owned == old(owned) && stopping
      ensures !old(stopping) && answer != Some(false) ==>
                var s := Site(old(conn.Snapshot()), old(Memory()));
                Site(conn.Snapshot(), Memory()) == WorkedSite(s, id, Room(s.local), claimBatch, leaseTtl, capabilities, locked, MAX_ROUNDS)
    {
      if stopping {
        return;
      }
      MaybeHeartbeat(answer);
      if stopping {
        return;
      }
      Work(conn, locked);
    }

    /** One turn of `_renew_until_stopped` for one attempt. */
    method RenewAttempt(conn: Connection, f: Flight)
      requires f in inflight - done && f !in quit
      modifies this`cancelled, this`quit, conn
      ensures var (after, answer) := Renew(old(conn.Snapshot()), f.task, f.attempt, id, leaseTtl);
        conn.Snapshot() == after && Memory() == Renewed(old(Memory()), f, answer)
    {
      var row := RenewLease(conn, f.task, f.attempt, id, leaseTtl);
      if row.None? {
        cancelled := cancelled + {f};
        quit := quit + {f};
        return;
      }
      if row.value {
        cancelled := cancelled + {f};
      }
    }

    /** The end of `_run_attempt`, reached when the adapter came back and was not cancelled. */
    method EndAttempt(conn: Connection, r: Report)
      requires Valid() && r.flight in inflight - done
      modifies this`done, this`owned, conn
      ensures Valid()
      ensures conn.Snapshot() == Finalized(old(conn.Snapshot()), id, r.flight in cancelled, r)
      ensures Memory() == Ended(old(Memory()), r.flight)
    {
      FinalizeAttempt(conn, r);
      owned := owned - {r.flight.task};
      done := done + {r.flight};
    }

    /** `_finalize`, in the order of its branches. */
    method FinalizeAttempt(conn: Connection, r: Report)
      modifies conn
      ensures conn.Snapshot() == Finalized(old(conn.Snapshot()), id, r.flight in cancelled, r)
    {
      var task, attempt := r.flight.task, r.flight.attempt;
      var maxAttempts := if task in conn.tasks then conn.tasks[task].maxAttempts else 0;
      var res;
      if r.flight in cancelled {
        res := CompleteCancelled(conn, task, attempt, id);
      } else if r.run.RanOk? {
        res := CompleteSuccess(conn, task, attempt, id, r.run.result);
      } else {
        var d := R.Decide(r.run.failure, attempt, maxAttempts, r.run.retryAfter, r.u, r.v);
        if d.shouldRetry {
          res := CompleteRetry(conn, task, attempt, id, ClassName(r.run.failure), Micros(d.backoff));
        } else {
          res := CompleteFailed(conn, task, attempt, id, ClassName(r.run.failure));
        }
      }
      if !res.Applied? {
        RecordEvent(conn, task, StaleWriteRejected, Some(attempt), Some(id));
      }
    }

    /** The rest of `_drain` once the grace period is over: what still runs is cancelled before it can
        finalise, and unless this worker was fenced everything it still lists is handed back. */
    method Drain(conn: Connection)
      requires Valid()
      modifies this`done, this`owned, conn
      ensures Valid() && done == inflight
      ensures old(fenced) ==> conn.Snapshot() == old(conn.Snapshot()) && owned == old(owned)
      ensures !old(fenced) ==> conn.Snapshot() == Drained(old(conn.Snapshot()), id, old(Memory())) && owned == map[]
    {
      done := inflight;
      if !fenced {
        HandBackOwned(conn);
        owned := map[];
      }
    }

    method HandBackOwned(conn: Connection)
      modifies conn
      ensures conn.Snapshot() == AbandonAll(old(conn.Snapshot()), id, owned, InOrder(owned.Keys))
    {
      var ids := InOrder(owned.Keys);
      InOrderFacts(owned.Keys);
      ghost var db := conn.Snapshot();
      assert ids[..0] == [];
      for i := 0 to |ids|
        invariant conn.Snapshot() == AbandonAll(db, id, owned, ids[..i])
      {
        assert ids[..i + 1][..|ids[..i + 1]| - 1] == ids[..i];
        assert ids[i] in ids;
        HandBackOne(conn, ids[i], ids[..i + 1], db);
      }
      assert ids[..|ids|] == ids;
    }

    method HandBackOne(conn: Connection, task: TaskId, ghost upto: seq<TaskId>, ghost db: Db)
      requires task in owned && upto != [] && upto[|upto| - 1] == task
      requires conn.Snapshot() == AbandonAll(db, id, owned, upto[..|upto| - 1])
      modifies conn
      ensures conn.Snapshot() == AbandonAll(db, id, owned, upto)
    {
      var res := CompleteAbandoned(conn, task, owned[task], id, SHUTDOWN);
    }
  }
}
