/** src/acp/worker/loop.py, `_run_attempt` and `_drain`: exactly which tasks a shutdown leaves RUNNING. */
module Orphans {
  import opened Tables
  import opened Claim
  import opened Ledger
  import opened WorkerLoop
  import opened WorkerRuns
  import opened CancelFlags

  /** The task is listed for hand-back under this attempt. */
  predicate Listed(s: Site, id: TaskId, n: nat) {
    id in s.local.owned && s.local.owned[id] == n
  }

  /** An older attempt of the task ends while this worker holds it under attempt `n`. */
  predicate EndsUnder(s: Site, worker: WorkerId, m: Move, id: TaskId, n: nat) {
    m.Ends? && m.report.flight.task == id && m.report.flight.attempt < n && Holds(s.db, id, n, worker)
  }

  // ---- one move -------------------------------------------------------------------------------------------------------

  lemma ClaimKeepsEntry(s: Site, worker: WorkerId, limit: nat, ttl: nat, caps: seq<string>, locked: set<TaskId>, rounds: nat,
                        id: TaskId, n: nat)
    requires Coherent(s.db) && Holds(s.db, id, n, worker)
    requires Holds(ClaimedSite(s, worker, limit, ttl, caps, locked, rounds).db, id, n, worker)
    ensures Listed(ClaimedSite(s, worker, limit, ttl, caps, locked, rounds), id, n) <==> Listed(s, id, n)
  {
    var ids := ClaimWithin(s.db, caps, limit, locked, rounds);
    var t := ClaimedSite(s, worker, limit, ttl, caps, locked, rounds);
    ClaimHolds(s.db, worker, limit, ttl, caps, locked, rounds);
    ClaimedLocal(s, worker, limit, ttl, caps, locked, rounds);
    FlightsAreNew(s.db, t.db, ids, {});
    DispatchedFacts(s.local, FlightsOf(t.db, ids));
  }

  lemma ClaimAddsEntry(s: Site, worker: WorkerId, limit: nat, ttl: nat, caps: seq<string>, locked: set<TaskId>, rounds: nat,
                       id: TaskId, n: nat)
    requires Coherent(s.db) && !Holds(s.db, id, n, worker)
    requires Holds(ClaimedSite(s, worker, limit, ttl, caps, locked, rounds).db, id, n, worker)
    ensures Listed(ClaimedSite(s, worker, limit, ttl, caps, locked, rounds), id, n)
    ensures id in s.db.tasks && s.db.tasks[id].attempt < n
  {
    var ids := ClaimWithin(s.db, caps, limit, locked, rounds);
    ClaimHolds(s.db, worker, limit, ttl, caps, locked, rounds);
    ClaimedLocal(s, worker, limit, ttl, caps, locked, rounds);
    EntryOf(s.local, ClaimedSite(s, worker, limit, ttl, caps, locked, rounds).db, ids, id);
  }

  /** A report drops the entry of its task, whichever attempt the entry is for. */
  lemma EndDropsEntry(s: Site, worker: WorkerId, r: Report, id: TaskId, n: nat)
    requires Attended(s, worker) && r.flight in s.local.inflight && Holds(s.db, id, n, worker)
    requires Holds(Finalized(s.db, worker, r.flight in s.local.cancelled, r), id, n, worker)
    ensures id in Ended(s.local, r.flight).owned && Ended(s.local, r.flight).owned[id] == n
            <==> Listed(s, id, n) && !EndsUnder(s, worker, Ends(r), id, n)
  {
    FinalizedHolds(s.db, worker, r.flight in s.local.cancelled, r);
    assert r.flight in s.local.inflight + s.local.done;
  }

  /** An entry of a held task survives every move but the end of an older attempt. */
  lemma EntryKept(s: Site, worker: WorkerId, m: Move, t: Site, id: TaskId, n: nat)
    requires WellKept(s, worker) && MovesTo(s, worker, m, t) && Holds(s.db, id, n, worker) && Holds(t.db, id, n, worker)
    ensures Listed(t, id, n) <==> Listed(s, id, n) && !EndsUnder(s, worker, m, id, n)
  {
    match m
    case Claims(limit, ttl, caps, locked, rounds) => ClaimKeepsEntry(s, worker, limit, ttl, caps, locked, rounds, id, n);
    case Renews(f, ttl) => RenewedBooks(s, worker, f, ttl);
    case Ends(r) => EndDropsEntry(s, worker, r, id, n);
    case Elsewhere(_) =>
    case Harvests =>
  }

  /** A tenure begins with a claim, which lists it. */
  lemma EntryAdded(s: Site, worker: WorkerId, m: Move, t: Site, id: TaskId, n: nat)
    requires WellKept(s, worker) && MovesTo(s, worker, m, t) && !Holds(s.db, id, n, worker) && Holds(t.db, id, n, worker)
    ensures Listed(t, id, n) && id in s.db.tasks && s.db.tasks[id].attempt < n
  {
    match m
    case Claims(limit, ttl, caps, locked, rounds) => ClaimAddsEntry(s, worker, limit, ttl, caps, locked, rounds, id, n);
    case Elsewhere(step) => ElsewhereHolds(s.db, step, worker, id, n);
    case Renews(f, ttl) => RenewHolds(s.db, f, worker, ttl, id, n);
    case Ends(r) => FinalizedHolds(s.db, worker, r.flight in s.local.cancelled, r);
    case Harvests =>
  }

  // ---- over a run -----------------------------------------------------------------------------------------------------

  /** The task's attempt number never falls. */
  ghost predicate Rising(sites: seq<Site>, id: TaskId) {
    forall i | 0 <= i < |sites| - 1 && id in sites[i].db.tasks ::
      id in sites[i + 1].db.tasks && sites[i].db.tasks[id].attempt <= sites[i + 1].db.tasks[id].attempt
  }

  lemma {:induction false} RisesTo(sites: seq<Site>, id: TaskId, i: nat, j: nat)
    requires Rising(sites, id) && i <= j < |sites| && id in sites[i].db.tasks
    ensures id in sites[j].db.tasks && sites[i].db.tasks[id].attempt <= sites[j].db.tasks[id].attempt
  {
    if i == j {
    } else {
      RisesTo(sites, id, i, j - 1);
      assert id in sites[j - 1].db.tasks;
    }
  }

  /** What move `i` did to the tenure and its entry. */
  ghost predicate Booked(s: Site, worker: WorkerId, m: Move, t: Site, id: TaskId, n: nat) {
    Holds(t.db, id, n, worker) ==>
      if Holds(s.db, id, n, worker) then Listed(t, id, n) <==> Listed(s, id, n) && !EndsUnder(s, worker, m, id, n)
      else Listed(t, id, n) && id in s.db.tasks && s.db.tasks[id].attempt < n
  }

  ghost predicate WellBooked(sites: seq<Site>, worker: WorkerId, moves: seq<Move>, id: TaskId, n: nat) {
    && |sites| == |moves| + 1 && Rising(sites, id) && !Holds(sites[0].db, id, n, worker)
    && forall i {:trigger moves[i]} | 0 <= i < |moves| :: Booked(sites[i], worker, moves[i], sites[i + 1], id, n)
  }

  lemma MoveBooked(s: Site, worker: WorkerId, m: Move, t: Site, id: TaskId, n: nat)
    requires WellKept(s, worker) && MovesTo(s, worker, m, t)
    ensures Booked(s, worker, m, t, id, n)
    ensures id in s.db.tasks ==> id in t.db.tasks && s.db.tasks[id].attempt <= t.db.tasks[id].attempt
  {
    MoveForward(s, worker, m);
    if Holds(t.db, id, n, worker) {
      if Holds(s.db, id, n, worker) {
        EntryKept(s, worker, m, t, id, n);
      } else {
        EntryAdded(s, worker, m, t, id, n);
      }
    }
  }

  lemma MoveBookedAt(sites: seq<Site>, worker: WorkerId, moves: seq<Move>, i: nat, id: TaskId, n: nat)
    requires IsJourney(sites, worker, moves) && Starts(sites[0], worker) && i < |moves|
    ensures Booked(sites[i], worker, moves[i], sites[i + 1], id, n)
    ensures id in sites[i].db.tasks ==> id in sites[i + 1].db.tasks && sites[i].db.tasks[id].attempt <= sites[i + 1].db.tasks[id].attempt
  {
    JourneyWellKept(sites, worker, moves, i);
    MoveBooked(sites[i], worker, moves[i], sites[i + 1], id, n);
  }

  lemma JourneyIsBooked(sites: seq<Site>, worker: WorkerId, moves: seq<Move>, id: TaskId, n: nat)
    requires IsJourney(sites, worker, moves) && Starts(sites[0], worker)
    ensures WellBooked(sites, worker, moves, id, n)
  {
    forall i | 0 <= i < |moves|
      ensures Booked(sites[i], worker, moves[i], sites[i + 1], id, n)
      ensures id in sites[i].db.tasks ==> id in sites[i + 1].db.tasks && sites[i].db.tasks[id].attempt <= sites[i + 1].db.tasks[id].attempt
    {
      MoveBookedAt(sites, worker, moves, i, id, n);
    }
  }

  /** Up to move `k` an older attempt of the task ended while attempt `n` was held. */
  ghost predicate EndedUnder(sites: seq<Site>, worker: WorkerId, moves: seq<Move>, k: nat, id: TaskId, n: nat)
    requires |sites| == |moves| + 1 && k < |sites|
  {
    exists j | 0 <= j < k :: EndsUnder(sites[j], worker, moves[j], id, n)
  }

  /** Before a tenure begins nothing ends under it. */
  lemma NothingYet(sites: seq<Site>, worker: WorkerId, moves: seq<Move>, k: nat, id: TaskId, n: nat)
    requires |sites| == |moves| + 1 && k < |moves| && Rising(sites, id)
    requires id in sites[k].db.tasks && sites[k].db.tasks[id].attempt < n
    ensures !EndedUnder(sites, worker, moves, k + 1, id, n)
  {
    forall j | 0 <= j < k + 1 ensures !EndsUnder(sites[j], worker, moves[j], id, n) {
      if Holds(sites[j].db, id, n, worker) { RisesTo(sites, id, j, k); }
    }
  }

  /** A held task is listed exactly when no older attempt of it ended since it was claimed. */
  lemma {:induction false} ListedIff(sites: seq<Site>, worker: WorkerId, moves: seq<Move>, k: nat, id: TaskId, n: nat)
    requires WellBooked(sites, worker, moves, id, n) && k < |sites| && Holds(sites[k].db, id, n, worker)
    ensures Listed(sites[k], id, n) <==> !EndedUnder(sites, worker, moves, k, id, n)
  {
    var m := k - 1;
    assert Booked(sites[m], worker, moves[m], sites[m + 1], id, n);
    if Holds(sites[m].db, id, n, worker) {
      ListedIff(sites, worker, moves, m, id, n);
      OneMoreEnd(sites, worker, moves, m, id, n);
    } else {
      NothingYet(sites, worker, moves, m, id, n);
    }
  }

  lemma OneMoreEnd(sites: seq<Site>, worker: WorkerId, moves: seq<Move>, k: nat, id: TaskId, n: nat)
    requires |sites| == |moves| + 1 && k < |moves|
    ensures EndedUnder(sites, worker, moves, k + 1, id, n) <==>
            EndedUnder(sites, worker, moves, k, id, n) || EndsUnder(sites[k], worker, moves[k], id, n)
  {}

  /** Graceful shutdown, exactly. After any run of a worker that started fresh, a drain that was not fenced
      leaves attempt `n` of a task RUNNING under the worker's id if and only if the worker held it and an
      older attempt of the same task ended after it was claimed. */
  lemma LeftRunningIff(sites: seq<Site>, worker: WorkerId, moves: seq<Move>, id: TaskId, n: nat)
    requires IsJourney(sites, worker, moves) && Starts(sites[0], worker)
    ensures var s := sites[|moves|];
      Holds(Drained(s.db, worker, s.local), id, n, worker) <==>
        Holds(s.db, id, n, worker) && EndedUnder(sites, worker, moves, |moves|, id, n)
  {
    var s := sites[|moves|];
    DrainFacts(s.db, worker, s.local);
    if Holds(s.db, id, n, worker) {
      JourneyIsBooked(sites, worker, moves, id, n);
      ListedIff(sites, worker, moves, |moves|, id, n);
    }
  }
}
