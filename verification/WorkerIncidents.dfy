/** Two runs of one worker, from the empty database and a fresh process, that end as nobody asked for. */
module WorkerIncidents {
  import opened Wrappers
  import opened Orders
  import opened Tables
  import opened Completion
  import opened Claim
  import opened Reap
  import opened Ledger
  import opened Protocol
  import opened WorkerLoop
  import opened WorkerRuns
  import opened CancelFlags
  import I = Incidents

  const W: WorkerId := I.W
  const START: Site := Site(EMPTY, FRESH)
  const FIRST: Flight := Flight(0, 1)

  // ---- journeys ---------------------------------------------------------------------------------------------------

  /** The sites of a run, from the start. */
  function Sites(s: Site, worker: WorkerId, moves: seq<Move>): (sites: seq<Site>)
    ensures |sites| == |moves| + 1 && sites[|moves|] == Journey(s, worker, moves)
  {
    if moves == [] then [s] else
      var front := Sites(s, worker, moves[..|moves| - 1]);
      front + [Advance(front[|moves| - 1], worker, moves[|moves| - 1])]
  }

  ghost predicate AllPossible(s: Site, worker: WorkerId, moves: seq<Move>) {
    moves != [] ==>
      AllPossible(s, worker, moves[..|moves| - 1]) && Possible(Journey(s, worker, moves[..|moves| - 1]), worker, moves[|moves| - 1])
  }

  lemma {:induction false} SitesAreJourney(s: Site, worker: WorkerId, moves: seq<Move>)
    requires AllPossible(s, worker, moves)
    ensures IsJourney(Sites(s, worker, moves), worker, moves) && Sites(s, worker, moves)[0] == s
  {
    if moves == [] {
    } else {
      var front, last := moves[..|moves| - 1], moves[|moves| - 1];
      SitesAreJourney(s, worker, front);
      FrontAndLast(moves);
      NextSite(s, worker, front, last);
      OneMoreSite(Sites(s, worker, front), Journey(s, worker, moves), worker, front, last);
    }
  }

  lemma OneMoreSite(sites: seq<Site>, next: Site, worker: WorkerId, front: seq<Move>, last: Move)
    requires IsJourney(sites, worker, front) && MovesTo(sites[|front|], worker, last, next)
    ensures IsJourney(sites + [next], worker, front + [last])
  {
    var all, moves := sites + [next], front + [last];
    forall i | 0 <= i < |moves| ensures MovesTo(all[i], worker, moves[i], all[i + 1]) {
      if i < |front| { assert MovesTo(sites[i], worker, front[i], sites[i + 1]); }
    }
  }

  lemma NextSite(s: Site, worker: WorkerId, front: seq<Move>, m: Move)
    ensures Journey(s, worker, front + [m]) == Advance(Journey(s, worker, front), worker, m)
    ensures AllPossible(s, worker, front + [m]) <==> AllPossible(s, worker, front) && Possible(Journey(s, worker, front), worker, m)
    ensures Sites(s, worker, front + [m]) == Sites(s, worker, front) + [Journey(s, worker, front + [m])]
  {
    assert (front + [m])[..|front|] == front;
  }

  lemma {:induction false} JourneyStaysWellKept(s: Site, worker: WorkerId, moves: seq<Move>)
    requires WellKept(s, worker) && AllPossible(s, worker, moves)
    ensures WellKept(Journey(s, worker, moves), worker)
  {
    if moves == [] {
    } else {
      JourneyStaysWellKept(s, worker, moves[..|moves| - 1]);
      MoveWellKept(Journey(s, worker, moves[..|moves| - 1]), worker, moves[|moves| - 1]);
    }
  }

  lemma FromStart(moves: seq<Move>)
    requires AllPossible(START, W, moves)
    ensures WellKept(Journey(START, W, moves), W)
  {
    EmptyCoherent();
    StartsWellKept(START, W);
    JourneyStaysWellKept(START, W, moves);
  }

  // ---- a worker that claimed the one task ---------------------------------------------------------------------------

  function Takes(c: I.Call): Move {
    Claims(c.limit, I.TTL, c.caps, {}, c.rounds)
  }

  function Taken(s: Site, c: I.Call): Site {
    ClaimedSite(s, W, c.limit, I.TTL, c.caps, {}, c.rounds)
  }

  function Entering(): seq<Move> {
    [Elsewhere(AddTenant(0, I.LIMITS))] + [Elsewhere(Submission(I.JobOf(0, 3), 0, I.QUIET))]
  }

  function Opening(c: I.Call): seq<Move> {
    Entering() + [Takes(c)]
  }

  /** Where such a run stands: the clock, the task, and what the worker remembers. */
  ghost predicate Stands(moves: seq<Move>, now: Time, t: Task, l: Local) {
    var s := Journey(START, W, moves);
    AllPossible(START, W, moves) && Coherent(s.db) && I.At(s.db, now, t) && s.local == l
  }

  /** A step of somebody else. */
  lemma Onward(front: seq<Move>, step: Step, now: Time, t: Task, now': Time, t': Task, l: Local)
    requires Stands(front, now, t, l) && Foreign(step, W)
    requires I.At(Apply(Journey(START, W, front).db, step), now', t')
    ensures Stands(front + [Elsewhere(step)], now', t', l)
  {
    NextSite(START, W, front, Elsewhere(step));
    StepCoherent(Journey(START, W, front).db, step);
  }

  lemma Entered()
    ensures Stands(Entering(), 0, I.Submitted(3), FRESH)
  {
    var first, second := Elsewhere(AddTenant(0, I.LIMITS)), Elsewhere(Submission(I.JobOf(0, 3), 0, I.QUIET));
    NextSite(START, W, [], first);
    assert [] + [first] == [first];
    NextSite(START, W, [first], second);
    EmptyCoherent();
    StepCoherent(EMPTY, first.step);
    StepCoherent(Apply(EMPTY, first.step), second.step);
    I.Arrival(3);
  }

  lemma OneFlight(l: Local, db: Db)
    requires 0 in db.tasks
    ensures var f := Flight(0, db.tasks[0].attempt);
      Dispatched(l, FlightsOf(db, [0])) == l.(inflight := l.inflight + {f}, owned := l.owned[0 := f.attempt])
  {
    var flights := FlightsOf(db, [0]);
    assert flights == [Flight(0, db.tasks[0].attempt)];
    assert flights[..0] == [];
    assert Dispatched(l, []) == l;
  }

  function Holding(l: Local, n: nat): Local {
    l.(inflight := l.inflight + {Flight(0, n)}, owned := l.owned[0 := n])
  }

  lemma ClaimsOne(s: Site, t: Task, c: I.Call)
    requires I.Taken(s.db, c) == [0] && !Duplicate(s.db, [0])
    requires I.At(ClaimTo(s.db, W, c.limit, I.TTL, c.caps, {}, c.rounds), s.db.now, t)
    ensures I.At(Taken(s, c).db, s.db.now, t) && Taken(s, c).local == Holding(s.local, t.attempt)
  {
    ClaimedLocal(s, W, c.limit, I.TTL, c.caps, {}, c.rounds);
    OneFlight(s.local, ClaimTo(s.db, W, c.limit, I.TTL, c.caps, {}, c.rounds));
  }

  /** The site after this worker claimed the one task. */
  lemma ClaimsHere(s: Site, t: Task, c: I.Call)
    requires Coherent(s.db) && I.At(s.db, s.db.now, t) && I.Free(t, s.db.now) && I.Asks(c)
    ensures var t' := GrantedRow(t, W, I.TTL, s.db.now);
      I.At(Taken(s, c).db, s.db.now, t') && Taken(s, c).local == Holding(s.local, t'.attempt)
  {
    I.ClaimedTask(s.db, t, c, I.TTL);
    ClaimsOne(s, GrantedRow(t, W, I.TTL, s.db.now), c);
  }

  /** After the opening the worker runs attempt 1 of task 0, under a lease of thirty seconds. */
  lemma Opened(c: I.Call)
    requires I.Asks(c)
    ensures Stands(Opening(c), 0, I.Granted(3), Holding(FRESH, 1))
  {
    var s := Journey(START, W, Entering());
    Entered();
    NextSite(START, W, Entering(), Takes(c));
    ClaimsHere(s, I.Submitted(3), c);
    ClaimCoherent(s.db, W, c.limit, I.TTL, c.caps, {}, c.rounds);
  }

  // ---- cancelled, and nobody asked ----------------------------------------------------------------------------------

  const LEASE: nat := 30_000_000

  /** A renewal comes when the thirty seconds are just up, before anybody reclaims the task. */
  function RenewedTooLate(c: I.Call): seq<Move> {
    Opening(c) + [Elsewhere(Tick(LEASE))] + [Renews(FIRST, I.TTL)]
  }

  lemma RefusedAtExpiry(db: Db)
    requires I.At(db, LEASE, I.Granted(3))
    ensures Renew(db, 0, 1, W, I.TTL) == (db, None)
  {}

  lemma Refused(c: I.Call)
    requires I.Asks(c)
    ensures Stands(RenewedTooLate(c), LEASE, I.Granted(3), Renewed(Holding(FRESH, 1), FIRST, None))
  {
    var front := Opening(c) + [Elsewhere(Tick(LEASE))];
    Opened(c);
    I.Waited(Journey(START, W, Opening(c)).db, I.Granted(3), LEASE);
    Onward(Opening(c), Tick(LEASE), 0, I.Granted(3), LEASE, I.Granted(3), Holding(FRESH, 1));
    RefusedAtExpiry(Journey(START, W, front).db);
    NextSite(START, W, front, Renews(FIRST, I.TTL));
  }

  /** The attempt then ends its task CANCELLED: nobody asked for that, and the adapter may have succeeded. */
  lemma UnaskedExample(c: I.Call, r: Report)
    requires I.Asks(c) && r.flight == FIRST
    ensures var moves := RenewedTooLate(c);
      && IsJourney(Sites(START, W, moves + [Ends(r)]), W, moves + [Ends(r)])
      && CancelledUnasked(Journey(START, W, moves), Journey(START, W, moves + [Ends(r)]), W, FIRST)
  {
    var moves := RenewedTooLate(c);
    Refused(c);
    NextSite(START, W, moves, Ends(r));
    ReportedRow(Journey(START, W, moves).db, W, true, r);
    SitesAreJourney(START, W, moves + [Ends(r)]);
  }

  // ---- left RUNNING by a graceful shutdown ----------------------------------------------------------------------------

  /** The lease runs out, and the reaper takes the task back. */
  function LostOnce(c: I.Call): seq<Move> {
    Opening(c) + [Elsewhere(Tick(I.EXPIRED))] + [Elsewhere(Recovery(LeasePhase, 0))]
  }

  function Lost(): Task {
    ReapedRow(I.Granted(3), LeasePhase, I.EXPIRED)
  }

  lemma ReclaimedOnce(c: I.Call)
    requires I.Asks(c)
    ensures Stands(LostOnce(c), I.EXPIRED, Lost(), Holding(FRESH, 1)) && I.Free(Lost(), I.EXPIRED)
  {
    var waits := Opening(c) + [Elsewhere(Tick(I.EXPIRED))];
    Opened(c);
    I.Waited(Journey(START, W, Opening(c)).db, I.Granted(3), I.EXPIRED);
    Onward(Opening(c), Tick(I.EXPIRED), 0, I.Granted(3), I.EXPIRED, I.Granted(3), Holding(FRESH, 1));
    I.TakenBack(Journey(START, W, waits).db, I.Granted(3), LeasePhase);
    Onward(waits, Recovery(LeasePhase, 0), I.EXPIRED, I.Granted(3), I.EXPIRED, Lost(), Holding(FRESH, 1));
  }

  /** The second claim, and what the worker's books then say. */
  lemma ReclaimedAgain(s: Site, c: I.Call)
    requires Coherent(s.db) && I.At(s.db, I.EXPIRED, Lost()) && I.Free(Lost(), I.EXPIRED) && I.Asks(c)
    ensures I.Taken(s.db, c) == [0] && Tracked(Taken(s, c), W)
  {
    ClaimsHere(s, Lost(), c);
    I.TakesTheOnlyTask(s.db, Lost(), c);
  }

  /** A worker that loses its lease and claims the task again while its first attempt is still running:
      up to that attempt's report its list is right, and after it a graceful drain leaves the task
      RUNNING under the worker's id. */
  lemma OverlapExample(c: I.Call, r: Report)
    requires I.Asks(c) && r.flight == FIRST
    ensures var claimed := LostOnce(c) + [Takes(c)];
      && IsJourney(Sites(START, W, claimed + [Ends(r)]), W, claimed + [Ends(r)])
      && Coherent(Journey(START, W, claimed).db) && Tracked(Journey(START, W, claimed), W)
    ensures var ended := Journey(START, W, LostOnce(c) + [Takes(c)] + [Ends(r)]);
      Holds(Drained(ended.db, W, ended.local), 0, 2, W)
  {
    var front := LostOnce(c);
    var s := Journey(START, W, front);
    ReclaimedOnce(c);
    FromStart(front);
    NextSite(START, W, front, Takes(c));
    FromStart(front + [Takes(c)]);
    ReclaimedAgain(s, c);
    ClaimKeepsFlights(s, W, c.limit, I.TTL, c.caps, {}, c.rounds);
    NextSite(START, W, front + [Takes(c)], Ends(r));
    SitesAreJourney(START, W, front + [Takes(c)] + [Ends(r)]);
    SelfReclaimOrphans(s, W, r, c.limit, I.TTL, c.caps, {}, c.rounds);
  }
}
