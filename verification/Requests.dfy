/** What becomes of a client's requests over whole runs: a task submitted for later, and a running task that
    is asked to stop. */
module Requests {
  import opened Wrappers
  import opened States
  import opened Tables
  import opened Transitions
  import opened Completion
  import opened Claim
  import opened Reap
  import opened Tasks
  import opened Ledger
  import opened Protocol
  import opened Moves
  import opened Timing
  import opened Effects
  import opened WorkerLoop
  import opened WorkerRuns
  import opened CancelFlags

  // ---- submitted for later -----------------------------------------------------------------------------------

  lemma CreatedIsStep(db: Db, r: Request, id: TaskId, env: Ambient, after: Db, res: Submitted)
    requires Coherent(db) && ApiOutcome(db, r, id, env, after, res) && res.Created?
    ensures after == Apply(db, Submission(r, id, env)) && Coherent(after)
  {
    CreatedRow(db, r, id, env, after, res);
    StepCoherent(db, Submission(r, id, env));
  }

  /** A task submitted for later is granted to nobody before its time: whatever is done until then, it still
      has no attempt, and it waits for that time unless it was cancelled. */
  lemma DelayedSubmission(start: seq<Step>, r: Request, id: TaskId, env: Ambient, after: Db, res: Submitted, later: seq<Step>)
    requires ApiOutcome(Run(EMPTY, start), r, id, env, after, res) && res.Created?
    requires r.availableAt.Some? && Run(after, later).now < r.availableAt.value
    ensures var db := Run(after, later);
      && id in db.tasks && db.tasks[id].attempt == 0 && (forall n: nat :: AttemptKey(id, n) !in db.attempts)
      && (db.tasks[id].state == Cancelled || (db.tasks[id].state == Queued && db.tasks[id].availableAt == r.availableAt.value))
  {
    EmptyCoherent();
    RunCoherent(EMPTY, start);
    CreatedIsStep(Run(EMPTY, start), r, id, env, after, res);
    CreatedRow(Run(EMPTY, start), r, id, env, after, res);
    WaitsItsTime(after, later, id, 0, r.availableAt.value);
    RunCoherent(after, later);
    NoAttemptYet(Run(after, later), id);
  }

  lemma NoAttemptYet(db: Db, id: TaskId)
    requires Coherent(db) && id in db.tasks && db.tasks[id].attempt == 0
    ensures forall n: nat :: AttemptKey(id, n) !in db.attempts
  {
    assert Sound(db, id);
    forall n: nat ensures AttemptKey(id, n) !in db.attempts {
      assert Row(db.attempts, id, n).Some? <==> AttemptKey(id, n) in db.attempts;
    }
  }

  // ---- asked to stop --------------------------------------------------------------------------------------------

  /** This step asks for a cancellation of the task, alone or with its agent's work, before it has ended. */
  predicate Asks(db: Db, s: Step, id: TaskId) {
    && id in db.tasks && (db.tasks[id].state == Queued || db.tasks[id].state == Running)
    && (|| s == Cancellation(id)
        || (s.AgentSweep? && db.tasks[id].agentVersion.Some? && db.tasks[id].agentVersion.value in s.versions))
  }

  ghost predicate AsksAt(steps: seq<Step>, k: nat, id: TaskId) {
    k < |steps| && Asks(Run(EMPTY, steps[..k]), steps[k], id)
  }

  lemma OtherMovesKeepFlag(db: Db, s: Step, id: TaskId, t': Task)
    requires id in db.tasks && Moved(db, s, id, db.tasks[id], t') && !s.Cancellation? && !s.AgentSweep?
    ensures t'.cancelRequested == db.tasks[id].cancelRequested
  {}

  lemma OtherStepsKeepFlag(db: Db, s: Step, id: TaskId)
    requires Coherent(db) && id in db.tasks && !s.Cancellation? && !s.AgentSweep?
    ensures id in Apply(db, s).tasks && Apply(db, s).tasks[id].cancelRequested == db.tasks[id].cancelRequested
  {
    StepMoves(db, s);
    if Apply(db, s).tasks[id] != db.tasks[id] { OtherMovesKeepFlag(db, s, id, Apply(db, s).tasks[id]); }
  }

  lemma CancellationAsks(db: Db, other: TaskId, id: TaskId)
    requires id in db.tasks
    ensures var after := Apply(db, Cancellation(other)).tasks;
      id in after && (after[id].cancelRequested <==> db.tasks[id].cancelRequested || Asks(db, Cancellation(other), id))
  {
    CancellationEffect(db, other);
  }

  lemma SweepAsks(db: Db, versions: set<VersionId>, id: TaskId)
    requires id in db.tasks
    ensures var after := Apply(db, AgentSweep(versions)).tasks;
      id in after && (after[id].cancelRequested <==> db.tasks[id].cancelRequested || Asks(db, AgentSweep(versions), id))
  {
    AgentSweepRows(db, versions, id);
  }

  /** A step sets the flag exactly when it asks, and none clears it. */
  lemma StepAsks(db: Db, s: Step, id: TaskId)
    requires Coherent(db) && id in Apply(db, s).tasks
    ensures Apply(db, s).tasks[id].cancelRequested <==> (id in db.tasks && db.tasks[id].cancelRequested) || Asks(db, s, id)
  {
    if id !in db.tasks {
      NewRowUnasked(db, s, id);
    } else if s.Cancellation? {
      CancellationAsks(db, s.id, id);
    } else if s.AgentSweep? {
      SweepAsks(db, s.versions, id);
    } else {
      OtherStepsKeepFlag(db, s, id);
    }
  }

  lemma NewRowUnasked(db: Db, s: Step, id: TaskId)
    requires Coherent(db) && id !in db.tasks && id in Apply(db, s).tasks
    ensures !Apply(db, s).tasks[id].cancelRequested
  {
    StepMoves(db, s);
  }

  lemma AskedBefore(steps: seq<Step>, id: TaskId, k: nat)
    requires steps != [] && k < |steps| - 1
    ensures AsksAt(steps, k, id) <==> AsksAt(steps[..|steps| - 1], k, id)
  {
    assert steps[..|steps| - 1][..k] == steps[..k];
  }

  lemma {:induction false} RequestedIff(steps: seq<Step>, id: TaskId)
    requires id in Run(EMPTY, steps).tasks
    ensures Run(EMPTY, steps).tasks[id].cancelRequested <==> exists k: nat :: AsksAt(steps, k, id)
  {
    if steps == [] {
    } else {
      var front, last := steps[..|steps| - 1], steps[|steps| - 1];
      EmptyCoherent();
      RunCoherent(EMPTY, front);
      StepAsks(Run(EMPTY, front), last, id);
      if id in Run(EMPTY, front).tasks { RequestedIff(front, id); } else { NeverAsked(front, id); }
      forall k: nat | k < |front| { AskedBefore(steps, id, k); }
      assert AsksAt(steps, |front|, id) <==> Asks(Run(EMPTY, front), last, id);
      LastOrEarlier(steps, id);
    }
  }

  lemma LastOrEarlier(steps: seq<Step>, id: TaskId)
    requires steps != []
    ensures var front := steps[..|steps| - 1];
      (exists k: nat :: AsksAt(steps, k, id)) <==> (exists k: nat :: AsksAt(front, k, id)) || AsksAt(steps, |front|, id)
  {
    var front := steps[..|steps| - 1];
    if k: nat :| AsksAt(front, k, id) {
      AskedBefore(steps, id, k);
      assert AsksAt(steps, k, id);
    }
    if k: nat :| AsksAt(steps, k, id) {
      if k < |front| {
        AskedBefore(steps, id, k);
        assert AsksAt(front, k, id);
      }
    }
  }

  lemma NeverAsked(steps: seq<Step>, id: TaskId)
    requires id !in Run(EMPTY, steps).tasks
    ensures forall k: nat :: !AsksAt(steps, k, id)
  {
    forall k: nat | k < |steps| ensures !AsksAt(steps, k, id) {
      if id in Run(EMPTY, steps[..k]).tasks { TasksStay(steps, k, id); }
    }
  }

  lemma {:induction false} TasksStay(steps: seq<Step>, k: nat, id: TaskId)
    requires k <= |steps| && id in Run(EMPTY, steps[..k]).tasks
    ensures id in Run(EMPTY, steps).tasks
  {
    if k == |steps| {
      assert steps[..k] == steps;
    } else {
      var front := steps[..|steps| - 1];
      assert front[..k] == steps[..k];
      TasksStay(front, k, id);
      EmptyCoherent();
      RunCoherent(EMPTY, front);
      StepMoves(Run(EMPTY, front), steps[|steps| - 1]);
    }
  }

  /** A request reaches the worker: over every run, an accepted renewal answers that the task is to stop
      exactly when some earlier step asked for it, and its lease then runs its full time from now. */
  lemma RenewalDelivers(steps: seq<Step>, id: TaskId, attempt: nat, worker: WorkerId, ttl: nat)
    requires IsLeased(Run(EMPTY, steps), id, attempt, worker)
    ensures var (after, answer) := Renew(Run(EMPTY, steps), id, attempt, worker, ttl);
      && answer.Some? && (answer.value <==> exists k: nat :: AsksAt(steps, k, id))
      && id in after.tasks && after.tasks[id].leaseExpiresAt.Some?
      && after.tasks[id].leaseExpiresAt.value == Run(EMPTY, steps).now + ttl * 1000000
  {
    RequestedIff(steps, id);
    RenewalEffect(Run(EMPTY, steps), id, attempt, worker, ttl);
  }

  // ---- the worker's side --------------------------------------------------------------------------------------------

  /** The answer of a renewal, and the cancel event and the loop of its attempt: a request sets the event, a
      refusal sets it and ends the loop, anything else leaves both. */
  lemma AnswerTaken(s: Site, worker: WorkerId, f: Flight, ttl: nat, g: Flight)
    ensures var l, m := s.local, Advance(s, worker, Renews(f, ttl)).local;
            var leased := IsLeased(s.db, f.task, f.attempt, worker);
      && (g in m.cancelled <==> g in l.cancelled || (g == f && (!leased || s.db.tasks[f.task].cancelRequested)))
      && (g in m.quit <==> g in l.quit || (g == f && !leased))
      && m.inflight == l.inflight && m.done == l.done && m.owned == l.owned && m.fenced == l.fenced && m.stopping == l.stopping
  {
    RenewalEffect(s.db, f.task, f.attempt, worker, ttl);
  }

  lemma QuitStays(s: Site, worker: WorkerId, m: Move, f: Flight)
    requires f in s.local.quit
    ensures f in Advance(s, worker, m).local.quit
  {
    match m
    case Elsewhere(_) =>
    case Claims(limit, ttl, caps, locked, rounds) => ClaimKeepsQuit(s, worker, limit, ttl, caps, locked, rounds);
    case Renews(g, ttl) => AnswerTaken(s, worker, g, ttl, f);
    case Ends(_) =>
    case Harvests =>
  }

  lemma {:induction false} DispatchKeepsQuit(l: Local, flights: seq<Flight>)
    ensures Dispatched(l, flights).quit == l.quit
  {
    if flights == [] {
    } else {
      DispatchKeepsQuit(l, flights[..|flights| - 1]);
    }
  }

  lemma ClaimKeepsQuit(s: Site, worker: WorkerId, limit: nat, ttl: nat, caps: seq<string>, locked: set<TaskId>, rounds: nat)
    ensures ClaimedSite(s, worker, limit, ttl, caps, locked, rounds).local.quit == s.local.quit
  {
    var ids := ClaimWithin(s.db, caps, limit, locked, rounds);
    var after := ClaimTo(s.db, worker, limit, ttl, caps, locked, rounds);
    DispatchKeepsQuit(s.local, FlightsOf(after, if Duplicate(s.db, ids) then [] else ids));
  }

  /** Once the loop of an attempt has ended it stays ended. */
  ghost predicate QuitsStay(sites: seq<Site>, f: Flight) {
    forall n | 0 <= n < |sites| - 1 && f in sites[n].local.quit :: f in sites[n + 1].local.quit
  }

  lemma QuitNext(s: Site, worker: WorkerId, m: Move, t: Site, f: Flight)
    requires MovesTo(s, worker, m, t) && f in s.local.quit
    ensures f in t.local.quit
  {
    QuitStays(s, worker, m, f);
  }

  lemma JourneyQuitsStay(sites: seq<Site>, worker: WorkerId, moves: seq<Move>, f: Flight)
    requires IsJourney(sites, worker, moves)
    ensures QuitsStay(sites, f)
  {
    forall n | 0 <= n < |moves| && f in sites[n].local.quit ensures f in sites[n + 1].local.quit {
      assert MovesTo(sites[n], worker, moves[n], sites[n + 1]);
      QuitNext(sites[n], worker, moves[n], sites[n + 1], f);
    }
  }

  lemma {:induction false} QuitForGood(sites: seq<Site>, k: nat, n: nat, f: Flight)
    requires QuitsStay(sites, f) && k <= n < |sites| && f in sites[k].local.quit
    ensures f in sites[n].local.quit
    decreases n
  {
    if k < n {
      QuitForGood(sites, k, n - 1, f);
      assert f in sites[n - 1 + 1].local.quit;
    }
  }

  /** A refused renewal is an attempt's last: nothing this worker does later renews it again. */
  lemma RefusalIsLast(sites: seq<Site>, worker: WorkerId, moves: seq<Move>, k: nat, m: nat, f: Flight, ttl: nat)
    requires IsJourney(sites, worker, moves) && k < m < |moves|
    requires moves[k] == Renews(f, ttl) && !IsLeased(sites[k].db, f.task, f.attempt, worker)
    ensures !(moves[m].Renews? && moves[m].flight == f)
  {
    JourneyStep(sites, worker, moves, k);
    AnswerTaken(sites[k], worker, f, ttl, f);
    JourneyQuitsStay(sites, worker, moves, f);
    QuitForGood(sites, k + 1, m, f);
    JourneyStep(sites, worker, moves, m);
  }

  // ---- a turn -----------------------------------------------------------------------------------------------------------

  lemma ClaimSiteIsStep(s: Site, worker: WorkerId, limit: nat, ttl: nat, caps: seq<string>, locked: set<TaskId>, rounds: nat)
    ensures ClaimedSite(s, worker, limit, ttl, caps, locked, rounds).db == Apply(s.db, Claiming(worker, limit, ttl, caps, locked, rounds))
  {}

  lemma FillIsClaim(s: Site, worker: WorkerId, free: int, batch: nat, ttl: nat, caps: seq<string>, locked: set<TaskId>,
                    limit: nat, rounds: nat)
    requires limit == if free <= 0 then 0 else if free < batch then free else batch
    ensures var filled := FilledSite(s, worker, free, batch, ttl, caps, locked, rounds);
      if free <= 0 then filled == s else filled.db == Apply(s.db, Claiming(worker, limit, ttl, caps, locked, rounds))
  {
    ClaimSiteIsStep(s, worker, limit, ttl, caps, locked, rounds);
  }

  lemma WorkIsFill(s: Site, worker: WorkerId, free: int, batch: nat, ttl: nat, caps: seq<string>, locked: set<TaskId>, rounds: nat)
    ensures WorkedSite(s, worker, free, batch, ttl, caps, locked, rounds).db
            == FilledSite(s, worker, free, batch, ttl, caps, locked, rounds).db
  {}

  /** A turn of a worker with room is one claim of the protocol, for the smaller of its room and its batch; one
      without room claims nothing. */
  lemma TurnIsClaim(s: Site, worker: WorkerId, free: int, batch: nat, ttl: nat, caps: seq<string>, locked: set<TaskId>,
                    limit: nat, rounds: nat)
    requires limit == if free <= 0 then 0 else if free < batch then free else batch
    ensures var after := WorkedSite(s, worker, free, batch, ttl, caps, locked, rounds).db;
      if free <= 0 then after == s.db else after == Apply(s.db, Claiming(worker, limit, ttl, caps, locked, rounds))
  {
    FillIsClaim(s, worker, free, batch, ttl, caps, locked, limit, rounds);
    WorkIsFill(s, worker, free, batch, ttl, caps, locked, rounds);
  }

  lemma OneFlightEach(db: Db, ids: seq<TaskId>, f: Flight)
    ensures f in FlightsOf(db, ids) <==> f.task in ids && f.attempt == if f.task in db.tasks then db.tasks[f.task].attempt else 0
  {
    if f.task in ids {
      var i :| 0 <= i < |ids| && ids[i] == f.task;
      assert FlightsOf(db, ids)[i].task == f.task;
    }
  }

  /** What the worker then runs: what it ran before, and each claimed task under the attempt it was granted. */
  lemma ClaimIsRun(s: Site, worker: WorkerId, limit: nat, ttl: nat, caps: seq<string>, locked: set<TaskId>, rounds: nat, f: Flight)
    requires Coherent(s.db)
    ensures var ids := ClaimWithin(s.db, caps, limit, locked, rounds);
            var l, m := s.local, ClaimedSite(s, worker, limit, ttl, caps, locked, rounds).local;
      && (f in m.inflight <==> f in l.inflight || (f.task in ids && f.task in s.db.tasks && f.attempt == s.db.tasks[f.task].attempt + 1))
      && m.done == l.done && m.fenced == l.fenced && m.stopping == l.stopping
  {
    var ids := ClaimWithin(s.db, caps, limit, locked, rounds);
    var after := ClaimTo(s.db, worker, limit, ttl, caps, locked, rounds);
    FlightIsNext(s.db, worker, limit, ttl, caps, locked, rounds, f);
    ClaimFlights(s, worker, limit, ttl, caps, locked, rounds);
    RunsFlights(s.local, FlightsOf(after, ids), f);
  }

  lemma ClaimFlights(s: Site, worker: WorkerId, limit: nat, ttl: nat, caps: seq<string>, locked: set<TaskId>, rounds: nat)
    requires Coherent(s.db)
    ensures ClaimedSite(s, worker, limit, ttl, caps, locked, rounds).local
            == Dispatched(s.local, FlightsOf(ClaimTo(s.db, worker, limit, ttl, caps, locked, rounds),
                                             ClaimWithin(s.db, caps, limit, locked, rounds)))
  {
    ClaimHolds(s.db, worker, limit, ttl, caps, locked, rounds);
  }

  lemma FlightIsNext(db: Db, worker: WorkerId, limit: nat, ttl: nat, caps: seq<string>, locked: set<TaskId>, rounds: nat, f: Flight)
    requires Coherent(db)
    ensures var ids := ClaimWithin(db, caps, limit, locked, rounds);
      f in FlightsOf(ClaimTo(db, worker, limit, ttl, caps, locked, rounds), ids)
      <==> f.task in ids && f.task in db.tasks && f.attempt == db.tasks[f.task].attempt + 1
  {
    ClaimHolds(db, worker, limit, ttl, caps, locked, rounds);
    OneFlightEach(ClaimTo(db, worker, limit, ttl, caps, locked, rounds), ClaimWithin(db, caps, limit, locked, rounds), f);
  }

  lemma RunsFlights(l: Local, flights: seq<Flight>, f: Flight)
    ensures var m := Dispatched(l, flights);
      && (f in m.inflight <==> f in l.inflight || f in flights)
      && m.done == l.done && m.fenced == l.fenced && m.stopping == l.stopping
  {
    DispatchedFacts(l, flights);
    DispatchKeepsSignals(l, flights);
  }

  lemma {:induction false} DispatchKeepsSignals(l: Local, flights: seq<Flight>)
    ensures Dispatched(l, flights).fenced == l.fenced && Dispatched(l, flights).stopping == l.stopping
  {
    if flights == [] {
    } else {
      DispatchKeepsSignals(l, flights[..|flights| - 1]);
    }
  }

  /** And lists for hand-back: each claimed task under its new attempt, every other task as before. */
  lemma ClaimIsListed(s: Site, worker: WorkerId, limit: nat, ttl: nat, caps: seq<string>, locked: set<TaskId>, rounds: nat, id: TaskId)
    requires Coherent(s.db)
    ensures var ids := ClaimWithin(s.db, caps, limit, locked, rounds);
            var l, m := s.local, ClaimedSite(s, worker, limit, ttl, caps, locked, rounds).local;
      && (id in ids ==> id in s.db.tasks && id in m.owned && m.owned[id] == s.db.tasks[id].attempt + 1)
      && (id !in ids ==> (id in m.owned <==> id in l.owned) && (id in l.owned ==> m.owned[id] == l.owned[id]))
  {
    var ids := ClaimWithin(s.db, caps, limit, locked, rounds);
    var after := ClaimTo(s.db, worker, limit, ttl, caps, locked, rounds);
    ClaimHolds(s.db, worker, limit, ttl, caps, locked, rounds);
    DispatchedFacts(s.local, FlightsOf(after, ids));
    if id in ids {
      EntryOf(s.local, after, ids, id);
    } else {
      assert id !in TasksOf(FlightsOf(after, ids)) by {
        forall f | f in FlightsOf(after, ids) ensures f.task != id { OneFlightEach(after, ids, f); }
      }
    }
  }

  /** Harvesting forgets exactly the attempts that have ended; the end of an attempt marks it and drops the
      hand-back entry of its task, whichever attempt that was for. */
  lemma EndAndHarvest(s: Site, worker: WorkerId, r: Report, f: Flight, id: TaskId)
    ensures var l := s.local; var e := Advance(s, worker, Ends(r)).local; var h := Advance(s, worker, Harvests);
      && (f in e.done <==> f in l.done || f == r.flight) && (id in e.owned <==> id in l.owned && id != r.flight.task)
      && (id in e.owned ==> e.owned[id] == l.owned[id]) && e.inflight == l.inflight && e.cancelled == l.cancelled && e.quit == l.quit
      && (f in h.local.inflight <==> f in l.inflight && f !in l.done) && h.local.done == {}
      && h.db == s.db && h.local.owned == l.owned && h.local.cancelled == l.cancelled && h.local.quit == l.quit
  {}
}
