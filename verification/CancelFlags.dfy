/** src/acp/worker/loop.py, `_renew_until_stopped`: one cancel event serves two signals, a cancel request
    and a refused renewal. When a task is ended CANCELLED that nobody asked to cancel. */
module CancelFlags {
  import opened Wrappers
  import opened States
  import opened Tables
  import opened Completion
  import opened Claim
  import opened Ledger
  import opened Protocol
  import opened Timing
  import opened WorkerLoop
  import opened WorkerRuns

  ghost predicate MovesTo(s: Site, worker: WorkerId, m: Move, t: Site) {
    Possible(s, worker, m) && t == Advance(s, worker, m)
  }

  /** A run of one worker with every state on the way. */
  ghost predicate IsJourney(sites: seq<Site>, worker: WorkerId, moves: seq<Move>) {
    && |sites| == |moves| + 1
    && forall i {:trigger moves[i]} | 0 <= i < |moves| :: MovesTo(sites[i], worker, moves[i], sites[i + 1])
  }

  /** A process that has just started, under an id no task carries. */
  ghost predicate Starts(s: Site, worker: WorkerId) {
    Coherent(s.db) && s.local == FRESH && forall id <- s.db.tasks :: s.db.tasks[id].leaseWorker != Some(worker)
  }

  ghost predicate WellKept(s: Site, worker: WorkerId) {
    Coherent(s.db) && Attended(s, worker) && Known(s.db, s.local.cancelled)
  }

  lemma StartsWellKept(s: Site, worker: WorkerId)
    requires Starts(s, worker)
    ensures WellKept(s, worker)
  {}

  // ---- one move ------------------------------------------------------------------------------------------------

  /** The protocol step a move of the worker is. */
  function StepOf(s: Site, worker: WorkerId, m: Move): Step {
    match m
    case Elsewhere(step) => step
    case Claims(limit, ttl, caps, locked, rounds) => Claiming(worker, limit, ttl, caps, locked, rounds)
    case Renews(f, ttl) => Renewal(f.task, f.attempt, worker, ttl)
    case Ends(r) =>
      if Holds(s.db, r.flight.task, r.flight.attempt, worker) then
        Finishing(r.flight.task, r.flight.attempt, worker, r.run, r.flight in s.local.cancelled, r.u, r.v)
      else Note(r.flight.task, StaleWriteRejected, Some(r.flight.attempt), Some(worker))
    case Harvests => Tick(0)
  }

  lemma EndIsStep(s: Site, worker: WorkerId, r: Report)
    ensures Apply(s.db, StepOf(s, worker, Ends(r))) == Finalized(s.db, worker, r.flight in s.local.cancelled, r)
  {
    FinalizedShape(s.db, worker, r.flight in s.local.cancelled, r);
  }

  lemma MoveIsStep(s: Site, worker: WorkerId, m: Move)
    ensures Advance(s, worker, m).db == Apply(s.db, StepOf(s, worker, m))
  {
    match m
    case Ends(r) => EndIsStep(s, worker, r);
    case _ =>
  }

  lemma MoveForward(s: Site, worker: WorkerId, m: Move)
    requires Coherent(s.db)
    ensures Forward(s.db, Advance(s, worker, m).db)
  {
    MoveIsStep(s, worker, m);
    StepCoherent(s.db, StepOf(s, worker, m));
  }

  /** Only a renewal sets the event, and nothing clears it. */
  lemma MoveFlags(s: Site, worker: WorkerId, m: Move)
    ensures var t := Advance(s, worker, m);
      t.local.cancelled == s.local.cancelled +
        (if m.Renews? && Renew(s.db, m.flight.task, m.flight.attempt, worker, m.ttl).1 != Some(false) then {m.flight} else {})
  {
    match m
    case Claims(limit, ttl, caps, locked, rounds) => ClaimFlags(s, worker, limit, ttl, caps, locked, rounds);
    case _ =>
  }

  lemma {:induction false} DispatchFlags(l: Local, flights: seq<Flight>)
    ensures Dispatched(l, flights).cancelled == l.cancelled
  {
    if flights == [] {
    } else {
      DispatchFlags(l, flights[..|flights| - 1]);
    }
  }

  lemma ClaimFlags(s: Site, worker: WorkerId, limit: nat, ttl: nat, caps: seq<string>, locked: set<TaskId>, rounds: nat)
    ensures ClaimedSite(s, worker, limit, ttl, caps, locked, rounds).local.cancelled == s.local.cancelled
  {
    var ids := ClaimWithin(s.db, caps, limit, locked, rounds);
    var after := ClaimTo(s.db, worker, limit, ttl, caps, locked, rounds);
    DispatchFlags(s.local, FlightsOf(after, if Duplicate(s.db, ids) then [] else ids));
  }

  /** A flag goes up only for an attempt the worker is running. */
  lemma FlagsOfFlights(s: Site, worker: WorkerId, m: Move)
    requires Possible(s, worker, m)
    ensures Advance(s, worker, m).local.cancelled <= s.local.cancelled + s.local.inflight
  {
    MoveFlags(s, worker, m);
  }

  lemma StaysWellKept(s: Site, t: Site, worker: WorkerId)
    requires WellKept(s, worker) && Coherent(t.db) && Attended(t, worker) && Forward(s.db, t.db)
    requires t.local.cancelled <= s.local.cancelled + s.local.inflight
    ensures WellKept(t, worker)
  {
    StillKnown(s.db, t.db, s.local.cancelled + s.local.inflight);
  }

  lemma MoveWellKept(s: Site, worker: WorkerId, m: Move)
    requires WellKept(s, worker) && Possible(s, worker, m)
    ensures WellKept(Advance(s, worker, m), worker) && Forward(s.db, Advance(s, worker, m).db)
  {
    MoveAttended(s, worker, m);
    MoveForward(s, worker, m);
    FlagsOfFlights(s, worker, m);
    StaysWellKept(s, Advance(s, worker, m), worker);
  }

  /** A tenure held after a move was held before it, if the attempt had been granted by then. */
  lemma MoveHolds(s: Site, worker: WorkerId, m: Move, f: Flight)
    requires Coherent(s.db) && Possible(s, worker, m) && Known(s.db, {f})
    requires Holds(Advance(s, worker, m).db, f.task, f.attempt, worker)
    ensures Holds(s.db, f.task, f.attempt, worker)
  {
    assert f in {f};
    match m
    case Elsewhere(step) => ElsewhereHolds(s.db, step, worker, f.task, f.attempt);
    case Claims(limit, ttl, caps, locked, rounds) => ClaimKeepsHolds(s.db, worker, limit, ttl, caps, locked, rounds, f);
    case Renews(g, ttl) => RenewHolds(s.db, g, worker, ttl, f.task, f.attempt);
    case Ends(r) => FinalizedHolds(s.db, worker, r.flight in s.local.cancelled, r);
    case Harvests =>
  }

  lemma ClaimKeepsHolds(db: Db, worker: WorkerId, limit: nat, ttl: nat, caps: seq<string>, locked: set<TaskId>, rounds: nat, f: Flight)
    requires Coherent(db) && f.task in db.tasks && f.attempt <= db.tasks[f.task].attempt
    requires Holds(ClaimTo(db, worker, limit, ttl, caps, locked, rounds), f.task, f.attempt, worker)
    ensures Holds(db, f.task, f.attempt, worker)
  {
    ClaimHolds(db, worker, limit, ttl, caps, locked, rounds);
  }

  // ---- where the flag came from ----------------------------------------------------------------------------------

  /** A renewal of this attempt is refused although the worker still holds the task: its lease has run out,
      and nobody has taken the task back yet. */
  ghost predicate Lapses(s: Site, worker: WorkerId, m: Move, f: Flight) {
    && m.Renews? && m.flight == f && Holds(s.db, f.task, f.attempt, worker)
    && s.db.tasks[f.task].leaseExpiresAt.Some? && s.db.tasks[f.task].leaseExpiresAt.value <= s.db.now
  }

  lemma RefusedMeansLapsed(s: Site, worker: WorkerId, m: Move, f: Flight)
    requires Coherent(s.db) && Holds(s.db, f.task, f.attempt, worker)
    ensures Lapses(s, worker, m, f) <==>
            m.Renews? && m.flight == f && Renew(s.db, f.task, f.attempt, worker, m.ttl).1.None?
  {
    assert Sound(s.db, f.task);
  }

  /** The event of a held attempt goes up by a refusal, or by a request that is then on the row. */
  lemma FlagSet(s: Site, worker: WorkerId, m: Move, f: Flight)
    requires Coherent(s.db) && Holds(s.db, f.task, f.attempt, worker)
    ensures f in Advance(s, worker, m).local.cancelled ==>
              f in s.local.cancelled || Lapses(s, worker, m, f) || s.db.tasks[f.task].cancelRequested
    ensures f in s.local.cancelled || Lapses(s, worker, m, f) ==> f in Advance(s, worker, m).local.cancelled
  {
    MoveFlags(s, worker, m);
    RefusedMeansLapsed(s, worker, m, f);
  }

  lemma NotRequestedBefore(a: Db, b: Db, id: TaskId)
    requires Forward(a, b) && id in a.tasks && id in b.tasks && !b.tasks[id].cancelRequested
    ensures !a.tasks[id].cancelRequested
  {}

  lemma JourneyStep(sites: seq<Site>, worker: WorkerId, moves: seq<Move>, i: nat)
    requires IsJourney(sites, worker, moves) && i < |moves|
    ensures Possible(sites[i], worker, moves[i]) && sites[i + 1] == Advance(sites[i], worker, moves[i])
  {
    assert MovesTo(sites[i], worker, moves[i], sites[i + 1]);
  }

  lemma NextWellKept(s: Site, worker: WorkerId, m: Move, t: Site)
    requires WellKept(s, worker) && MovesTo(s, worker, m, t)
    ensures WellKept(t, worker)
  {
    MoveWellKept(s, worker, m);
  }

  lemma WellKeptAfter(sites: seq<Site>, worker: WorkerId, moves: seq<Move>, m: nat)
    requires IsJourney(sites, worker, moves) && m < |moves| && WellKept(sites[m], worker)
    ensures WellKept(sites[m + 1], worker)
  {
    NextWellKept(sites[m], worker, moves[m], sites[m + 1]);
  }

  lemma {:induction false} JourneyWellKept(sites: seq<Site>, worker: WorkerId, moves: seq<Move>, n: nat)
    requires IsJourney(sites, worker, moves) && n < |sites| && Starts(sites[0], worker)
    ensures WellKept(sites[n], worker)
  {
    if n == 0 {
      StartsWellKept(sites[0], worker);
    } else {
      JourneyWellKept(sites, worker, moves, n - 1);
      WellKeptAfter(sites, worker, moves, n - 1);
    }
  }

  /** Up to move n some renewal of the attempt lapsed. */
  ghost predicate Lapsed(sites: seq<Site>, worker: WorkerId, moves: seq<Move>, n: nat, f: Flight)
    requires |sites| == |moves| + 1 && n < |sites|
  {
    exists k | 0 <= k < n :: Lapses(sites[k], worker, moves[k], f)
  }

  /** What was known of the attempt one move earlier. */
  lemma OneMoveBack(s: Site, worker: WorkerId, m: Move, f: Flight)
    requires WellKept(s, worker) && Possible(s, worker, m) && f in Advance(s, worker, m).local.cancelled
    requires Holds(Advance(s, worker, m).db, f.task, f.attempt, worker)
    requires !Advance(s, worker, m).db.tasks[f.task].cancelRequested
    ensures Holds(s.db, f.task, f.attempt, worker) && !s.db.tasks[f.task].cancelRequested
    ensures f in s.local.cancelled || Lapses(s, worker, m, f)
  {
    FlagsOfFlights(s, worker, m);
    assert f in s.local.cancelled + s.local.inflight;
    MoveHolds(s, worker, m, f);
    MoveForward(s, worker, m);
    NotRequestedBefore(s.db, Advance(s, worker, m).db, f.task);
    FlagSet(s, worker, m, f);
  }

  lemma {:induction false} FlagHasLapse(sites: seq<Site>, worker: WorkerId, moves: seq<Move>, n: nat, f: Flight)
    requires IsJourney(sites, worker, moves) && n < |sites| && Starts(sites[0], worker)
    requires Holds(sites[n].db, f.task, f.attempt, worker) && !sites[n].db.tasks[f.task].cancelRequested
    requires f in sites[n].local.cancelled
    ensures Lapsed(sites, worker, moves, n, f)
  {
    var m := n - 1;
    JourneyWellKept(sites, worker, moves, m);
    JourneyStep(sites, worker, moves, m);
    OneMoveBack(sites[m], worker, moves[m], f);
    if f in sites[m].local.cancelled {
      FlagHasLapse(sites, worker, moves, m, f);
      var k :| 0 <= k < m && Lapses(sites[k], worker, moves[k], f);
    }
  }

  lemma FlagNext(s: Site, worker: WorkerId, m: Move, t: Site, f: Flight)
    requires WellKept(s, worker) && MovesTo(s, worker, m, t) && (f in s.local.cancelled || Lapses(s, worker, m, f))
    ensures f in t.local.cancelled
  {
    MoveFlags(s, worker, m);
    if Lapses(s, worker, m, f) { FlagSet(s, worker, m, f); }
  }

  lemma FlagAfter(sites: seq<Site>, worker: WorkerId, moves: seq<Move>, m: nat, f: Flight)
    requires IsJourney(sites, worker, moves) && m < |moves| && Starts(sites[0], worker)
    requires f in sites[m].local.cancelled || Lapses(sites[m], worker, moves[m], f)
    ensures f in sites[m + 1].local.cancelled
  {
    JourneyWellKept(sites, worker, moves, m);
    FlagNext(sites[m], worker, moves[m], sites[m + 1], f);
  }

  /** A flag that is up, or goes up by a lapse, is up after the move. */
  ghost predicate FlagsStay(sites: seq<Site>, worker: WorkerId, moves: seq<Move>, f: Flight) {
    && |sites| == |moves| + 1
    && forall m | 0 <= m < |moves| ::
      f in sites[m].local.cancelled || Lapses(sites[m], worker, moves[m], f) ==> f in sites[m + 1].local.cancelled
  }

  lemma JourneyFlagsStay(sites: seq<Site>, worker: WorkerId, moves: seq<Move>, f: Flight)
    requires IsJourney(sites, worker, moves) && Starts(sites[0], worker)
    ensures FlagsStay(sites, worker, moves, f)
  {
    forall m: nat | m < |moves| && (f in sites[m].local.cancelled || Lapses(sites[m], worker, moves[m], f))
      ensures f in sites[m + 1].local.cancelled
    {
      FlagAfter(sites, worker, moves, m, f);
    }
  }

  lemma {:induction false} LapseSetsFlag(sites: seq<Site>, worker: WorkerId, moves: seq<Move>, k: nat, n: nat, f: Flight)
    requires FlagsStay(sites, worker, moves, f) && k < n < |sites| && Lapses(sites[k], worker, moves[k], f)
    ensures f in sites[n].local.cancelled
    decreases n
  {
    if k < n - 1 { LapseSetsFlag(sites, worker, moves, k, n - 1, f); }
    assert f in sites[n - 1].local.cancelled || Lapses(sites[n - 1], worker, moves[n - 1], f);
  }

  /** The cancel event of an attempt whose task nobody asked to cancel: set exactly when one of its
      renewals lapsed. */
  lemma FlagIff(sites: seq<Site>, worker: WorkerId, moves: seq<Move>, n: nat, f: Flight)
    requires IsJourney(sites, worker, moves) && n < |sites| && Starts(sites[0], worker)
    requires Holds(sites[n].db, f.task, f.attempt, worker) && !sites[n].db.tasks[f.task].cancelRequested
    ensures f in sites[n].local.cancelled <==> Lapsed(sites, worker, moves, n, f)
  {
    if f in sites[n].local.cancelled {
      FlagHasLapse(sites, worker, moves, n, f);
    }
    if Lapsed(sites, worker, moves, n, f) {
      var k :| 0 <= k < n && Lapses(sites[k], worker, moves[k], f);
      JourneyFlagsStay(sites, worker, moves, f);
      LapseSetsFlag(sites, worker, moves, k, n, f);
    }
  }

  // ---- an ending nobody asked for ------------------------------------------------------------------------------

  /** The attempt was still held, and its report made the task CANCELLED although no cancel was requested. */
  ghost predicate CancelledUnasked(s: Site, t: Site, worker: WorkerId, f: Flight) {
    && Holds(s.db, f.task, f.attempt, worker)
    && f.task in t.db.tasks && t.db.tasks[f.task].state == Cancelled && !t.db.tasks[f.task].cancelRequested
  }

  /** The row after a report of a held attempt: CANCELLED exactly when the event was set, and the request
      flag is not touched. */
  lemma ReportedRow(db: Db, worker: WorkerId, cancelled: bool, r: Report)
    requires Holds(db, r.flight.task, r.flight.attempt, worker)
    ensures var t := Finalized(db, worker, cancelled, r).tasks;
      && r.flight.task in t && (t[r.flight.task].state == Cancelled <==> cancelled)
      && t[r.flight.task].cancelRequested == db.tasks[r.flight.task].cancelRequested
  {
    FinalizedShape(db, worker, cancelled, r);
  }

  /** Over any run of a worker: an attempt that ends makes CANCELLED out of a task nobody asked to cancel
      exactly when it still holds the task, no cancel was requested, and an earlier renewal of it was
      refused because its lease had run out without being reclaimed. Whatever its adapter returned. */
  lemma CancelledUnaskedIff(sites: seq<Site>, worker: WorkerId, moves: seq<Move>, n: nat)
    requires IsJourney(sites, worker, moves) && n < |moves| && moves[n].Ends? && Starts(sites[0], worker)
    ensures var f := moves[n].report.flight;
      CancelledUnasked(sites[n], sites[n + 1], worker, f) <==>
        && Holds(sites[n].db, f.task, f.attempt, worker) && !sites[n].db.tasks[f.task].cancelRequested
        && Lapsed(sites, worker, moves, n, f)
  {
    var r := moves[n].report;
    var f := r.flight;
    JourneyStep(sites, worker, moves, n);
    if Holds(sites[n].db, f.task, f.attempt, worker) {
      ReportedRow(sites[n].db, worker, f in sites[n].local.cancelled, r);
      if !sites[n].db.tasks[f.task].cancelRequested {
        FlagIff(sites, worker, moves, n, f);
      }
    }
  }

  // ---- a punctual worker never does it ---------------------------------------------------------------------------

  function StatesFrom(sites: seq<Site>, g: nat): seq<Db>
    requires g <= |sites|
  {
    seq(|sites| - g, i requires 0 <= i < |sites| - g => sites[g + i].db)
  }

  function StepsFrom(sites: seq<Site>, worker: WorkerId, moves: seq<Move>, g: nat): seq<Step>
    requires g <= |moves| < |sites|
  {
    seq(|moves| - g, i requires 0 <= i < |moves| - g => StepOf(sites[g + i], worker, moves[g + i]))
  }

  ghost predicate Follows(before: Db, step: Step, after: Db) {
    after == Apply(before, step)
  }

  /** The tables of a journey, move by move, are those of a run. */
  ghost predicate IsRun(sites: seq<Site>, worker: WorkerId, moves: seq<Move>) {
    && |sites| == |moves| + 1
    && forall j {:trigger moves[j]} | 0 <= j < |moves| :: Follows(sites[j].db, StepOf(sites[j], worker, moves[j]), sites[j + 1].db)
  }

  lemma MoveAt(sites: seq<Site>, worker: WorkerId, moves: seq<Move>, j: nat)
    requires IsJourney(sites, worker, moves) && j < |moves|
    ensures Follows(sites[j].db, StepOf(sites[j], worker, moves[j]), sites[j + 1].db)
  {
    JourneyStep(sites, worker, moves, j);
    MoveIsStep(sites[j], worker, moves[j]);
  }

  lemma JourneyIsRun(sites: seq<Site>, worker: WorkerId, moves: seq<Move>)
    requires IsJourney(sites, worker, moves)
    ensures IsRun(sites, worker, moves)
  {
    forall j | 0 <= j < |moves| ensures Follows(sites[j].db, StepOf(sites[j], worker, moves[j]), sites[j + 1].db) {
      MoveAt(sites, worker, moves, j);
    }
  }

  lemma RunAt(sites: seq<Site>, worker: WorkerId, moves: seq<Move>, g: nat, i: nat)
    requires IsRun(sites, worker, moves) && g + i < |moves|
    ensures Follows(StatesFrom(sites, g)[i], StepsFrom(sites, worker, moves, g)[i], StatesFrom(sites, g)[i + 1])
  {
    var j := g + i;
    assert Follows(sites[j].db, StepOf(sites[j], worker, moves[j]), sites[j + 1].db);
  }

  lemma RunIsTrace(sites: seq<Site>, worker: WorkerId, moves: seq<Move>, g: nat)
    requires IsRun(sites, worker, moves) && g <= |moves|
    ensures IsTrace(StatesFrom(sites, g), StepsFrom(sites, worker, moves, g))
  {
    forall i: nat | i < |moves| - g { RunAt(sites, worker, moves, g, i); }
  }

  lemma StateFrom(sites: seq<Site>, g: nat, i: nat)
    requires g <= |sites| && i < |sites| - g
    ensures StatesFrom(sites, g)[i] == sites[g + i].db
  {}

  lemma JourneyTrace(sites: seq<Site>, worker: WorkerId, moves: seq<Move>, g: nat)
    requires IsJourney(sites, worker, moves) && g <= |moves| && Starts(sites[0], worker)
    ensures IsTrace(StatesFrom(sites, g), StepsFrom(sites, worker, moves, g)) && Coherent(StatesFrom(sites, g)[0])
  {
    JourneyWellKept(sites, worker, moves, g);
    JourneyIsRun(sites, worker, moves);
    RunIsTrace(sites, worker, moves, g);
  }

  /** From the grant at move g on, a diligent worker's renewals never lapse. */
  lemma NeverLapses(sites: seq<Site>, worker: WorkerId, moves: seq<Move>, g: nat, k: nat, f: Flight, granted: Time, s: Settings)
    requires IsJourney(sites, worker, moves) && g <= k < |moves| && Starts(sites[0], worker) && ValidTiming(s)
    requires Holds(sites[g].db, f.task, f.attempt, worker) && ExpiresAt(sites[g].db.tasks[f.task], granted + Seconds(s.leaseTtl))
    requires Diligent(StatesFrom(sites, g), StepsFrom(sites, worker, moves, g), granted, f.task, f.attempt, worker, s)
    ensures !Lapses(sites[k], worker, moves[k], f)
  {
    JourneyTrace(sites, worker, moves, g);
    var states, steps := StatesFrom(sites, g), StepsFrom(sites, worker, moves, g);
    StateFrom(sites, g, 0);
    StateFrom(sites, g, k - g);
    if Holds(sites[k].db, f.task, f.attempt, worker) {
      LiveNow(states, steps, k - g, granted, f.task, f.attempt, worker, s);
    }
  }

  /** Under `validate_timing`, an attempt granted at move g and renewed at most three intervals apart is
      never ended CANCELLED unless somebody asked for it. */
  lemma PunctualNeverUnasked(sites: seq<Site>, worker: WorkerId, moves: seq<Move>, g: nat, n: nat, granted: Time, s: Settings)
    requires IsJourney(sites, worker, moves) && g <= n < |moves| && moves[n].Ends? && Starts(sites[0], worker) && ValidTiming(s)
    requires var f := moves[n].report.flight;
      && (forall k | 0 <= k < g :: !Holds(sites[k].db, f.task, f.attempt, worker))
      && Holds(sites[g].db, f.task, f.attempt, worker) && ExpiresAt(sites[g].db.tasks[f.task], granted + Seconds(s.leaseTtl))
      && Diligent(StatesFrom(sites, g), StepsFrom(sites, worker, moves, g), granted, f.task, f.attempt, worker, s)
    ensures !CancelledUnasked(sites[n], sites[n + 1], worker, moves[n].report.flight)
  {
    var f := moves[n].report.flight;
    CancelledUnaskedIff(sites, worker, moves, n);
    forall k | 0 <= k < n ensures !Lapses(sites[k], worker, moves[k], f) {
      if g <= k { NeverLapses(sites, worker, moves, g, k, f, granted, s); }
    }
  }
}
