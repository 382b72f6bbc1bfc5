/** Who comes first, on the stored columns: in a claim, in a recovery sweep and on a page. */
module Urgency {
  import opened Wrappers
  import opened Orders
  import opened States
  import opened Tables
  import opened Claim
  import opened Rounds
  import opened Reap
  import opened ReaperLoop
  import opened Effects
  import opened Pagination

  // ---- claims: priority, then available_at, then id ------------------------------------------------------

  /** A row a claim may return: waiting, due, unlocked, and within the worker's capabilities. */
  predicate IsOffered(db: Db, caps: seq<string>, locked: set<TaskId>, id: TaskId) {
    && id in db.tasks && id !in locked && db.tasks[id].state == Queued && db.tasks[id].availableAt <= db.now
    && Eligible(db.tasks[id], caps)
  }

  /** Row `a` is to be claimed before row `b`. */
  predicate IsSooner(tasks: map<TaskId, Task>, a: TaskId, b: TaskId) {
    && a in tasks && b in tasks
    && (|| tasks[a].priority < tasks[b].priority
        || (tasks[a].priority == tasks[b].priority && tasks[a].availableAt < tasks[b].availableAt)
        || (tasks[a].priority == tasks[b].priority && tasks[a].availableAt == tasks[b].availableAt && a < b))
  }

  /** Rows in the order the query returns them. */
  ghost predicate InRowOrder(db: Db, caps: seq<string>, locked: set<TaskId>, rows: seq<Candidate>) {
    && (forall i | 0 <= i < |rows| :: IsOffered(db, caps, locked, rows[i].id))
    && (forall i, j | 0 <= i < j < |rows| :: IsSooner(db.tasks, rows[i].id, rows[j].id))
  }

  lemma OrderedByColumns(db: Db, caps: seq<string>, locked: set<TaskId>)
    ensures InRowOrder(db, caps, locked, Order(EligibleRows(db, caps, locked)))
  {
    var rows := Order(EligibleRows(db, caps, locked));
    OrderedRows(db, caps, locked);
    OrderFacts(EligibleRows(db, caps, locked));
    forall i, j | 0 <= i < j < |rows| ensures IsSooner(db.tasks, rows[i].id, rows[j].id) {
      assert Before(rows[i], rows[j]);
      assert rows[i] in rows && rows[j] in rows;
    }
  }

  lemma OfferedIsListed(db: Db, caps: seq<string>, locked: set<TaskId>, id: TaskId) returns (p: nat)
    requires IsOffered(db, caps, locked, id)
    ensures var rows := Order(EligibleRows(db, caps, locked)); p < |rows| && rows[p].id == id
  {
    var rows := Order(EligibleRows(db, caps, locked));
    OrderFacts(EligibleRows(db, caps, locked));
    var row := CandidateOf(id, db.tasks[id]);
    assert row in EligibleRows(db, caps, locked);
    assert row in Elements(rows);
    p :| 0 <= p < |rows| && rows[p] == row;
  }

  lemma SoonerIsStrict(tasks: map<TaskId, Task>, a: TaskId, b: TaskId)
    requires IsSooner(tasks, a, b)
    ensures !IsSooner(tasks, b, a) && a != b
  {}

  lemma SoonerStandsEarlier(db: Db, caps: seq<string>, locked: set<TaskId>, rows: seq<Candidate>, p: nat, q: nat)
    requires InRowOrder(db, caps, locked, rows) && p < |rows| && q < |rows| && IsSooner(db.tasks, rows[p].id, rows[q].id)
    ensures p < q
  {
    SoonerIsStrict(db.tasks, rows[p].id, rows[q].id);
  }

  /** What one query of a claim returns: of the rows it may, as many as were asked for, ordered by these
      columns, none of which comes after a row left out. */
  lemma BestOnColumns(db: Db, caps: seq<string>, skip: set<TaskId>, need: nat)
    ensures var batch := Best(need, EligibleRows(db, caps, skip)); var all := set id | id in db.tasks && IsOffered(db, caps, skip, id);
      && |batch| == Min(need, |all|)
      && (forall i | 0 <= i < |batch| :: IsOffered(db, caps, skip, batch[i].id))
      && (forall i, j | 0 <= i < j < |batch| :: IsSooner(db.tasks, batch[i].id, batch[j].id))
      && (forall i, id | 0 <= i < |batch| && id in all && (forall r <- batch :: r.id != id) :: IsSooner(db.tasks, batch[i].id, id))
  {
    var rows := Order(EligibleRows(db, caps, skip));
    var batch := Best(need, EligibleRows(db, caps, skip));
    OrderedByColumns(db, caps, skip);
    OrderFacts(EligibleRows(db, caps, skip));
    OfferedCount(db, caps, skip);
    forall i, id | 0 <= i < |batch| && IsOffered(db, caps, skip, id) && (forall r <- batch :: r.id != id)
      ensures IsSooner(db.tasks, batch[i].id, id)
    {
      var p := OfferedIsListed(db, caps, skip, id);
      HeadOrRest(rows, |batch|, p);
    }
  }

  lemma HeadOrRest(rows: seq<Candidate>, n: nat, p: nat)
    requires n <= |rows| && p < |rows|
    ensures p < n ==> rows[p] in rows[..n]
  {
    if p < n { assert rows[..n][p] == rows[p]; }
  }

  lemma OfferedCount(db: Db, caps: seq<string>, skip: set<TaskId>)
    ensures |EligibleRows(db, caps, skip)| == |set id | id in db.tasks && IsOffered(db, caps, skip, id)|
  {
    var all := set id | id in db.tasks && IsOffered(db, caps, skip, id);
    RowsByIds(db, all);
    assert EligibleRows(db, caps, skip) == RowsFor(db, all);
  }

  function RowsFor(db: Db, ids: set<TaskId>): set<Candidate> {
    set id | id in ids && id in db.tasks :: CandidateOf(id, db.tasks[id])
  }

  lemma {:induction false} RowsByIds(db: Db, ids: set<TaskId>)
    requires ids <= db.tasks.Keys
    ensures |RowsFor(db, ids)| == |ids|
  {
    if ids == {} {
    } else {
      var id :| id in ids;
      RowsByIds(db, ids - {id});
      var row := CandidateOf(id, db.tasks[id]);
      assert RowsFor(db, ids) == RowsFor(db, ids - {id}) + {row};
    }
  }

  // ---- what the pass does to that order --------------------------------------------------------------------

  /** The picked ids stand in the order of their rows. */
  ghost predicate Follow(tasks: map<TaskId, Task>, ids: seq<TaskId>) {
    forall i, j | 0 <= i < j < |ids| :: IsSooner(tasks, ids[i], ids[j])
  }

  lemma FollowSnoc(tasks: map<TaskId, Task>, ids: seq<TaskId>, id: TaskId)
    requires Follow(tasks, ids) && forall k <- ids :: IsSooner(tasks, k, id)
    ensures Follow(tasks, ids + [id])
  {}

  lemma PicksBeforeLast(db: Db, caps: seq<string>, locked: set<TaskId>, front: seq<Candidate>, last: Candidate, limit: nat)
    requires InRowOrder(db, caps, locked, front + [last])
    ensures forall id <- Greedy(db, front, limit) :: IsSooner(db.tasks, id, last.id)
  {
    var rows := front + [last];
    GreedyFrom(db, front, limit);
    forall id | id in Greedy(db, front, limit) ensures IsSooner(db.tasks, id, last.id) {
      var r :| r in front && r.id == id;
      var k :| 0 <= k < |front| && front[k] == r;
      assert IsSooner(db.tasks, rows[k].id, rows[|front|].id);
    }
  }

  lemma {:induction false} GreedyFollows(db: Db, caps: seq<string>, locked: set<TaskId>, rows: seq<Candidate>, limit: nat)
    requires InRowOrder(db, caps, locked, rows)
    ensures Follow(db.tasks, Greedy(db, rows, limit))
  {
    if rows == [] {
    } else {
      var front, last := rows[..|rows| - 1], rows[|rows| - 1];
      assert rows == front + [last];
      GreedyFollows(db, caps, locked, front, limit);
      PicksBeforeLast(db, caps, locked, front, last, limit);
      FollowSnoc(db.tasks, Greedy(db, front, limit), last.id);
    }
  }

  /** The ids a claim returns are in the order of priority, available_at and id. */
  lemma ClaimedInOrder(db: Db, caps: seq<string>, limit: nat, locked: set<TaskId>, rounds: nat, i: nat, j: nat)
    requires i < j < |ClaimWithin(db, caps, limit, locked, rounds)|
    ensures var ids := ClaimWithin(db, caps, limit, locked, rounds);
      && ids[i] in db.tasks && ids[j] in db.tasks
      && var a, b := db.tasks[ids[i]], db.tasks[ids[j]];
         || a.priority < b.priority
         || (a.priority == b.priority && a.availableAt < b.availableAt)
         || (a.priority == b.priority && a.availableAt == b.availableAt && ids[i] < ids[j])
  {
    var rows := Order(EligibleRows(db, caps, locked));
    OrderedByColumns(db, caps, locked);
    GreedyFollows(db, caps, locked, rows[..Seen(db, rows, limit, rounds)], limit);
    var ids := ClaimWithin(db, caps, limit, locked, rounds);
    assert IsSooner(db.tasks, ids[i], ids[j]);
  }

  /** The rows of one tenant among the picked ones. */
  function TakenOf(tasks: map<TaskId, Task>, ids: seq<TaskId>, tenant: TenantId): set<TaskId> {
    set id | id in ids && id in tasks && tasks[id].tenant == tenant
  }

  lemma {:induction false} CountIsSize(tasks: map<TaskId, Task>, ids: seq<TaskId>, tenant: TenantId)
    requires Distinct(ids) && forall id <- ids :: id in tasks
    ensures CountOf(tasks, ids, tenant) == |TakenOf(tasks, ids, tenant)|
  {
    if ids == [] {
    } else {
      var front, last := ids[..|ids| - 1], ids[|ids| - 1];
      FrontAndLast(ids);
      CountIsSize(tasks, front, tenant);
      if tasks[last].tenant == tenant {
        assert TakenOf(tasks, ids, tenant) == TakenOf(tasks, front, tenant) + {last};
        assert last !in TakenOf(tasks, front, tenant);
      } else {
        assert TakenOf(tasks, ids, tenant) == TakenOf(tasks, front, tenant);
      }
    }
  }

  /** A tenant has no room for another task: it is unknown, or what is RUNNING and what these ids would add
      come to its max_concurrent_tasks. */
  predicate IsFull(db: Db, tenant: TenantId, ids: seq<TaskId>) {
    tenant in db.tenants ==>
      |set id | id in db.tasks && db.tasks[id].tenant == tenant && db.tasks[id].state == Running|
      + |set id | id in ids && id in db.tasks && db.tasks[id].tenant == tenant| >= db.tenants[tenant].maxConcurrent
  }

  lemma NoSlackIsFull(db: Db, ids: seq<TaskId>, id: TaskId)
    requires Distinct(ids) && (forall i <- ids :: i in db.tasks) && id in db.tasks
    ensures NoSlack(db, ids, id) <==> IsFull(db, db.tasks[id].tenant, ids)
  {
    CountIsSize(db.tasks, ids, db.tasks[id].tenant);
    var tenant := db.tasks[id].tenant;
    assert RunningSet(db.tasks, tenant) == set i | i in db.tasks && db.tasks[i].tenant == tenant && db.tasks[i].state == Running;
    assert TakenOf(db.tasks, ids, tenant) == set i | i in ids && i in db.tasks && db.tasks[i].tenant == tenant;
  }

  // ---- who is claimed first ----------------------------------------------------------------------------------

  lemma CountGrows(tasks: map<TaskId, Task>, a: seq<TaskId>, b: seq<TaskId>, tenant: TenantId)
    requires Distinct(b) && a <= b && forall id <- b :: id in tasks
    ensures |TakenOf(tasks, a, tenant)| <= |TakenOf(tasks, b, tenant)|
  {
    SubsetSize(TakenOf(tasks, a, tenant), TakenOf(tasks, b, tenant));
  }

  lemma FullStaysFull(db: Db, a: seq<TaskId>, b: seq<TaskId>, tenant: TenantId)
    requires Distinct(b) && a <= b && (forall id <- b :: id in db.tasks) && IsFull(db, tenant, a)
    ensures IsFull(db, tenant, b)
  {
    CountGrows(db.tasks, a, b, tenant);
    assert TakenOf(db.tasks, a, tenant) == set id | id in a && id in db.tasks && db.tasks[id].tenant == tenant;
    assert TakenOf(db.tasks, b, tenant) == set id | id in b && id in db.tasks && db.tasks[id].tenant == tenant;
  }

  /** A row that was looked at and left: its tenant was full already with the rows before it. */
  lemma LeftBecauseFull(db: Db, caps: seq<string>, locked: set<TaskId>, rows: seq<Candidate>, n: nat, limit: nat, p: nat)
    requires rows == Order(EligibleRows(db, caps, locked)) && p < n <= |rows|
    requires rows[p].id !in Greedy(db, rows[..n], limit)
    ensures var before := Greedy(db, rows[..p], limit);
      && before <= Greedy(db, rows[..n], limit) && rows[p].id in db.tasks
      && (|before| == limit || IsFull(db, db.tasks[rows[p].id].tenant, before))
  {
    OrderedRows(db, caps, locked);
    assert rows[..n][..p] == rows[..p] && rows[p] in rows;
    GreedySkips(db, rows[..n], p, limit);
    GreedyPrefix(db, rows[..n], p, limit);
    KnownPicks(db, caps, locked, rows, p, limit);
    NoSlackIsFull(db, Greedy(db, rows[..p], limit), rows[p].id);
  }

  lemma KnownPicks(db: Db, caps: seq<string>, locked: set<TaskId>, rows: seq<Candidate>, n: nat, limit: nat)
    requires rows == Order(EligibleRows(db, caps, locked)) && n <= |rows|
    ensures Distinct(Greedy(db, rows[..n], limit)) && forall id <- Greedy(db, rows[..n], limit) :: id in db.tasks
  {
    OrderedRows(db, caps, locked);
    GreedyFrom(db, rows[..n], limit);
    forall id | id in Greedy(db, rows[..n], limit) ensures id in db.tasks {
      var r :| r in rows[..n] && r.id == id;
      assert r in rows;
    }
  }

  lemma PickTaken(db: Db, before: seq<TaskId>, id: TaskId, limit: nat)
    requires Pick(db, before, id, limit) == before + [id]
    ensures |before| < limit && !NoSlack(db, before, id)
  {}

  /** When a row is picked, the limit was not reached and its tenant had room before it. */
  lemma PickedHadRoom(db: Db, caps: seq<string>, locked: set<TaskId>, rows: seq<Candidate>, n: nat, limit: nat, q: nat)
    requires rows == Order(EligibleRows(db, caps, locked)) && q < n <= |rows|
    requires rows[q].id in Greedy(db, rows[..n], limit)
    ensures var before := Greedy(db, rows[..q], limit);
      && before + [rows[q].id] <= Greedy(db, rows[..n], limit) && |before| < limit
      && rows[q].id in db.tasks && !IsFull(db, db.tasks[rows[q].id].tenant, before)
  {
    OrderedRows(db, caps, locked);
    PickedHere(db, rows, q, n, limit);
    PickIsPrefix(db, rows, q, n, limit);
    PickTaken(db, Greedy(db, rows[..q], limit), rows[q].id, limit);
    KnownPicks(db, caps, locked, rows, q, limit);
    assert rows[q] in rows;
    NoSlackIsFull(db, Greedy(db, rows[..q], limit), rows[q].id);
  }

  lemma PickIsPrefix(db: Db, rows: seq<Candidate>, q: nat, n: nat, limit: nat)
    requires q < n <= |rows|
    ensures Greedy(db, rows[..q + 1], limit) == Pick(db, Greedy(db, rows[..q], limit), rows[q].id, limit)
    ensures Greedy(db, rows[..q + 1], limit) <= Greedy(db, rows[..n], limit)
  {
    GreedySnoc(db, rows[..q], rows[q], limit);
    assert rows[..q] + [rows[q]] == rows[..q + 1] && rows[..n][..q + 1] == rows[..q + 1];
    GreedyPrefix(db, rows[..n], q + 1, limit);
  }

  /** A row is picked at its own place or not at all. */
  lemma PickedHere(db: Db, rows: seq<Candidate>, q: nat, n: nat, limit: nat)
    requires DistinctRows(rows) && q < n <= |rows| && rows[q].id in Greedy(db, rows[..n], limit)
    ensures Greedy(db, rows[..q + 1], limit) == Greedy(db, rows[..q], limit) + [rows[q].id]
  {
    if n == q + 1 {
      GreedySnoc(db, rows[..q], rows[q], limit);
      assert rows[..q] + [rows[q]] == rows[..q + 1];
      NotAmong(db, rows, q, limit);
    } else {
      GreedySnoc(db, rows[..n - 1], rows[n - 1], limit);
      assert rows[..n - 1] + [rows[n - 1]] == rows[..n];
      PickedHere(db, rows, q, n - 1, limit);
    }
  }

  lemma NotAmong(db: Db, rows: seq<Candidate>, q: nat, limit: nat)
    requires DistinctRows(rows) && q < |rows|
    ensures rows[q].id !in Greedy(db, rows[..q], limit)
  {
    GreedyFrom(db, rows[..q], limit);
    forall id | id in Greedy(db, rows[..q], limit) ensures id != rows[q].id {
      var r :| r in rows[..q] && r.id == id;
      var i :| 0 <= i < q && rows[i] == r;
    }
  }

  /** A row of one tenant that is to come before another one of the same tenant is claimed before it: over
      every table, if `id` is claimed and `o` is waiting, due, unlocked, within the worker's capabilities and
      smaller in (priority, available_at, id), then `o` is claimed too and stands earlier. */
  lemma SameTenantFirst(db: Db, caps: seq<string>, limit: nat, locked: set<TaskId>, rounds: nat, id: TaskId, o: TaskId)
    requires id in ClaimWithin(db, caps, limit, locked, rounds) && id in db.tasks && o in db.tasks
    requires db.tasks[o].tenant == db.tasks[id].tenant && o !in locked
    requires db.tasks[o].state == Queued && db.tasks[o].availableAt <= db.now && Eligible(db.tasks[o], caps)
    requires var a, b := db.tasks[o], db.tasks[id];
      || a.priority < b.priority
      || (a.priority == b.priority && a.availableAt < b.availableAt)
      || (a.priority == b.priority && a.availableAt == b.availableAt && o < id)
    ensures var ids := ClaimWithin(db, caps, limit, locked, rounds); exists i, j :: 0 <= i < j < |ids| && ids[i] == o && ids[j] == id
  {
    var rows := Order(EligibleRows(db, caps, locked));
    var n := Seen(db, rows, limit, rounds);
    var p, q := Places(db, caps, locked, rows, n, limit, id, o);
    SameTenantPicked(db, caps, locked, rows, n, limit, p, q);
  }

  /** Where the two rows stand in the offered list. */
  lemma Places(db: Db, caps: seq<string>, locked: set<TaskId>, rows: seq<Candidate>, n: nat, limit: nat, id: TaskId, o: TaskId)
    returns (p: nat, q: nat)
    requires rows == Order(EligibleRows(db, caps, locked)) && n <= |rows|
    requires id in Greedy(db, rows[..n], limit) && IsOffered(db, caps, locked, o) && IsSooner(db.tasks, o, id)
    ensures p < q < n && rows[p].id == o && rows[q].id == id
  {
    GreedyFrom(db, rows[..n], limit);
    var r :| r in rows[..n] && r.id == id;
    q :| 0 <= q < n && rows[q] == r;
    p := OfferedIsListed(db, caps, locked, o);
    OrderedByColumns(db, caps, locked);
    SoonerStandsEarlier(db, caps, locked, rows, p, q);
  }

  lemma SameTenantPicked(db: Db, caps: seq<string>, locked: set<TaskId>, rows: seq<Candidate>, n: nat, limit: nat, p: nat, q: nat)
    requires rows == Order(EligibleRows(db, caps, locked)) && p < q < n <= |rows|
    requires rows[p].id in db.tasks && rows[q].id in db.tasks && db.tasks[rows[p].id].tenant == db.tasks[rows[q].id].tenant
    requires rows[q].id in Greedy(db, rows[..n], limit)
    ensures var ids := Greedy(db, rows[..n], limit); exists i, j :: 0 <= i < j < |ids| && ids[i] == rows[p].id && ids[j] == rows[q].id
  {
    var ids, before := Greedy(db, rows[..n], limit), Greedy(db, rows[..q], limit);
    PickedHadRoom(db, caps, locked, rows, n, limit, q);
    if rows[p].id !in before {
      LeftBecauseFull(db, caps, locked, rows, q, limit, p);
      KnownPicks(db, caps, locked, rows, q, limit);
      FullStaysFull(db, Greedy(db, rows[..p], limit), before, db.tasks[rows[q].id].tenant);
      assert false;
    }
    var i :| 0 <= i < |before| && before[i] == rows[p].id;
    assert ids[i] == rows[p].id && ids[|before|] == rows[q].id;
  }

  /** Between tenants: a row that comes before a claimed one is claimed too, unless its own tenant is full
      with what is RUNNING and what this claim takes. */
  lemma SoonerOrFull(db: Db, caps: seq<string>, limit: nat, locked: set<TaskId>, rounds: nat, id: TaskId, o: TaskId)
    requires id in ClaimWithin(db, caps, limit, locked, rounds)
    requires IsOffered(db, caps, locked, o) && IsSooner(db.tasks, o, id)
    ensures var ids := ClaimWithin(db, caps, limit, locked, rounds); o in ids || IsFull(db, db.tasks[o].tenant, ids)
  {
    var rows := Order(EligibleRows(db, caps, locked));
    var n := Seen(db, rows, limit, rounds);
    var p, q := Places(db, caps, locked, rows, n, limit, id, o);
    if o !in Greedy(db, rows[..n], limit) {
      LeftBecauseFull(db, caps, locked, rows, n, limit, p);
      SeenBelowLimit(db, rows, limit, rounds, p);
      KnownPicks(db, caps, locked, rows, n, limit);
      FullStaysFull(db, Greedy(db, rows[..p], limit), Greedy(db, rows[..n], limit), db.tasks[o].tenant);
    }
  }

  /** No tenant is taken beyond its max_concurrent_tasks, in numbers. */
  lemma NoTenantOverfilled(db: Db, caps: seq<string>, limit: nat, locked: set<TaskId>, rounds: nat, id: TaskId)
    requires id in ClaimWithin(db, caps, limit, locked, rounds)
    ensures id in db.tasks && db.tasks[id].tenant in db.tenants
    ensures var tenant := db.tasks[id].tenant; var ids := ClaimWithin(db, caps, limit, locked, rounds);
      |set k | k in db.tasks && db.tasks[k].tenant == tenant && db.tasks[k].state == Running|
      + |set k | k in ids && k in db.tasks && db.tasks[k].tenant == tenant| <= db.tenants[tenant].maxConcurrent
  {
    ClaimGuarantee(db, caps, limit, locked, rounds);
    var ids, tenant := ClaimWithin(db, caps, limit, locked, rounds), db.tasks[id].tenant;
    CountIsSize(db.tasks, ids, tenant);
    assert id in TakenOf(db.tasks, ids, tenant);
    assert CountOf(db.tasks, ids, tenant) <= Slack(db, tenant);
    assert RunningSet(db.tasks, tenant) == set k | k in db.tasks && db.tasks[k].tenant == tenant && db.tasks[k].state == Running;
    assert TakenOf(db.tasks, ids, tenant) == set k | k in ids && k in db.tasks && db.tasks[k].tenant == tenant;
  }

  lemma {:induction false} FirstSlice(db: Db, rows: seq<Candidate>, limit: nat, rounds: nat)
    requires rounds > 0
    ensures Seen(db, rows, limit, rounds) >= Min(limit, |rows|)
  {
    SeenGrows(db, rows, limit, rounds - 1);
    if rounds == 1 {
      SeenStep(db, rows, limit, 0);
    } else {
      FirstSlice(db, rows, limit, rounds - 1);
    }
  }

  lemma {:induction false} HeadCount(rows: seq<Candidate>, p: nat)
    requires DistinctRows(rows) && p <= |rows|
    ensures |IdsOf(rows[..p])| == p
  {
    if p == 0 {
    } else {
      HeadCount(rows, p - 1);
      assert rows[..p] == rows[..p - 1] + [rows[p - 1]];
      assert IdsOf(rows[..p]) == IdsOf(rows[..p - 1]) + {rows[p - 1].id};
    }
  }

  /** A row with fewer than `limit` others before it is always looked at: it is claimed unless its tenant is
      full. */
  lemma HeadOfLineIsClaimed(db: Db, caps: seq<string>, limit: nat, locked: set<TaskId>, rounds: nat, o: TaskId)
    requires rounds > 0 && IsOffered(db, caps, locked, o)
    requires |set k | k in db.tasks && IsOffered(db, caps, locked, k) && IsSooner(db.tasks, k, o)| < limit
    ensures var ids := ClaimWithin(db, caps, limit, locked, rounds); o in ids || IsFull(db, db.tasks[o].tenant, ids)
  {
    var rows := Order(EligibleRows(db, caps, locked));
    var n := Seen(db, rows, limit, rounds);
    var p := OfferedIsListed(db, caps, locked, o);
    var sooner := set k | k in db.tasks && IsOffered(db, caps, locked, k) && IsSooner(db.tasks, k, o);
    HeadIsSooner(db, caps, locked, rows, p, sooner);
    FirstSlice(db, rows, limit, rounds);
    if o !in Greedy(db, rows[..n], limit) {
      LeftBecauseFull(db, caps, locked, rows, n, limit, p);
      SeenBelowLimit(db, rows, limit, rounds, p);
      KnownPicks(db, caps, locked, rows, n, limit);
      FullStaysFull(db, Greedy(db, rows[..p], limit), Greedy(db, rows[..n], limit), db.tasks[o].tenant);
    }
  }

  lemma HeadIsSooner(db: Db, caps: seq<string>, locked: set<TaskId>, rows: seq<Candidate>, p: nat, sooner: set<TaskId>)
    requires rows == Order(EligibleRows(db, caps, locked)) && p < |rows|
    requires forall k :: k in sooner <==> IsOffered(db, caps, locked, k) && IsSooner(db.tasks, k, rows[p].id)
    ensures p <= |sooner|
  {
    OrderedByColumns(db, caps, locked);
    OrderedRows(db, caps, locked);
    HeadCount(rows, p);
    forall k | k in IdsOf(rows[..p]) ensures k in sooner {
      var i :| 0 <= i < p && rows[i].id == k;
      assert IsSooner(db.tasks, rows[i].id, rows[p].id);
    }
    SubsetSize(IdsOf(rows[..p]), sooner);
  }

  // ---- recovery: longest overdue first, then id ----------------------------------------------------------------

  /** The deadline a phase sorts by: the end of the lease, or the first start. */
  predicate IsSince(t: Task, phase: Phase, at: Time) {
    match phase
    case LeasePhase => t.leaseExpiresAt.Some? && t.leaseExpiresAt.value == at
    case HungPhase => t.firstStartedAt.Some? && t.firstStartedAt.value == at
  }

  lemma DueOnColumns(db: Db, phase: Phase, locked: set<TaskId>, r: Due)
    requires r in DueRows(db, phase, locked)
    ensures r.id in db.tasks && r.id !in locked && IsOverdue(db.tasks[r.id], phase, db.now) && IsSince(db.tasks[r.id], phase, r.since)
  {}

  lemma OverdueIsDue(db: Db, phase: Phase, locked: set<TaskId>, id: TaskId, at: Time)
    requires id in db.tasks && id !in locked && IsOverdue(db.tasks[id], phase, db.now) && IsSince(db.tasks[id], phase, at)
    ensures Due(at, id) in DueRows(db, phase, locked)
  {
    assert Since(db.tasks[id], phase) == at;
  }

  /** A sweep takes the longest overdue rows: each taken row has an earlier deadline than each overdue row it
      leaves, or the same one and a smaller id. */
  lemma LongestOverdueFirst(db: Db, phase: Phase, locked: set<TaskId>, size: nat, batches: nat, id: TaskId, o: TaskId, at: Time, due: Time)
    requires id in Ids(Taken(db, phase, locked, size, batches)) && o !in Ids(Taken(db, phase, locked, size, batches))
    requires o in db.tasks && o !in locked && IsOverdue(db.tasks[o], phase, db.now) && IsSince(db.tasks[o], phase, due)
    requires id in db.tasks ==> IsSince(db.tasks[id], phase, at)
    ensures id in db.tasks && id !in locked && IsOverdue(db.tasks[id], phase, db.now)
    ensures at < due || (at == due && id < o)
  {
    var taken := Taken(db, phase, locked, size, batches);
    SweepCompleteness(db, phase, locked, size, batches);
    var i :| 0 <= i < |taken| && Ids(taken)[i] == id;
    assert taken[i] in taken;
    DueOnColumns(db, phase, locked, taken[i]);
    OverdueIsDue(db, phase, locked, o, due);
    forall k | 0 <= k < |taken| ensures taken[k] != Due(due, o) { assert Ids(taken)[k] != o; }
  }

  function OverdueIds(db: Db, phase: Phase, locked: set<TaskId>): set<TaskId> {
    set id | id in db.tasks && id !in locked && IsOverdue(db.tasks[id], phase, db.now)
  }

  lemma DueRowsAre(db: Db, phase: Phase, locked: set<TaskId>)
    ensures DueRows(db, phase, locked) == DueFor(db, phase, OverdueIds(db, phase, locked))
  {
    forall id | id in db.tasks ensures Overdue(db.tasks[id], phase, db.now) <==> IsOverdue(db.tasks[id], phase, db.now) {}
  }

  /** And as many as its batches hold. */
  lemma OverdueTaken(db: Db, phase: Phase, locked: set<TaskId>, size: nat, batches: nat)
    ensures |Taken(db, phase, locked, size, batches)| == Min(|OverdueIds(db, phase, locked)|, size * batches)
  {
    SweepCompleteness(db, phase, locked, size, batches);
    DueByIds(db, phase, OverdueIds(db, phase, locked));
    DueRowsAre(db, phase, locked);
  }

  function DueFor(db: Db, phase: Phase, ids: set<TaskId>): set<Due> {
    set id | id in ids && id in db.tasks :: Due(Since(db.tasks[id], phase), id)
  }

  lemma {:induction false} DueByIds(db: Db, phase: Phase, ids: set<TaskId>)
    requires ids <= db.tasks.Keys
    ensures |DueFor(db, phase, ids)| == |ids|
  {
    if ids == {} {
    } else {
      var id :| id in ids;
      DueByIds(db, phase, ids - {id});
      var row := Due(Since(db.tasks[id], phase), id);
      assert DueFor(db, phase, ids) == DueFor(db, phase, ids - {id}) + {row};
    }
  }

  /** The overdue time a recovery reports: from the end of the lease, or from the execution cap after the first
      start, to now. It is never nothing. */
  lemma {:induction false} OverdueReported(db: Db, phase: Phase, locked: set<TaskId>, rows: seq<Due>, i: nat, deadline: Time)
    requires (forall r <- rows :: r.id in db.tasks && r in DueRows(db, phase, locked)) && i < |rows|
    requires var t := db.tasks[rows[i].id];
      if phase == LeasePhase then t.leaseExpiresAt.Some? && t.leaseExpiresAt.value == deadline
      else t.firstStartedAt.Some? && t.firstStartedAt.value + t.maxExecutionTime * 1000000 == deadline
    ensures var reported := OverdueList(db, phase, rows); |reported| == |rows| && reported[i] == db.now - deadline > 0
  {
    OverdueLength(db, phase, rows);
    if i < |rows| - 1 {
      OverdueReported(db, phase, locked, rows[..|rows| - 1], i, deadline);
    } else {
      DueOnColumns(db, phase, locked, rows[i]);
    }
  }

  lemma {:induction false} OverdueLength(db: Db, phase: Phase, rows: seq<Due>)
    requires forall r <- rows :: r.id in db.tasks
    ensures |OverdueList(db, phase, rows)| == |rows|
  {
    if rows != [] { OverdueLength(db, phase, rows[..|rows| - 1]); }
  }

  /** The rows of a list whose budget is used up. */
  function SpentIn(tasks: map<TaskId, Task>, rows: seq<Due>): set<TaskId> {
    set r | r in rows && r.id in tasks && tasks[r.id].maxAttempts <= tasks[r.id].attempt :: r.id
  }

  lemma {:induction false} ExhaustedIsSpent(tasks: map<TaskId, Task>, rows: seq<Due>)
    requires forall i, j | 0 <= i < j < |rows| :: rows[i].id != rows[j].id
    ensures ExhaustedIn(tasks, rows) == |SpentIn(tasks, rows)|
  {
    if rows == [] {
    } else {
      var front, last := rows[..|rows| - 1], rows[|rows| - 1];
      ExhaustedIsSpent(tasks, front);
      FrontAndLast(rows);
      SpentSnoc(tasks, front, last);
      if last.id in tasks && Exhausted(tasks[last.id]) { assert last.id !in SpentIn(tasks, front); }
    }
  }

  lemma SpentSnoc(tasks: map<TaskId, Task>, front: seq<Due>, last: Due)
    ensures SpentIn(tasks, front + [last]) == SpentIn(tasks, front)
              + if last.id in tasks && Exhausted(tasks[last.id]) then {last.id} else {}
  {}

  /** The rows that were RUNNING in one table and are in a given state in the other. */
  function Became(a: map<TaskId, Task>, b: map<TaskId, Task>, to: State): set<TaskId> {
    set id | id in a && id in b && a[id].state == Running && b[id].state == to
  }

  lemma ListedIds(rows: seq<Due>, id: TaskId)
    ensures id in Ids(rows) <==> exists r :: r in rows && r.id == id
  {
    if id in Ids(rows) {
      var i :| 0 <= i < |rows| && Ids(rows)[i] == id;
      assert rows[i] in rows;
    }
    if r :| r in rows && r.id == id {
      var i :| 0 <= i < |rows| && rows[i] == r;
      assert Ids(rows)[i] == id;
    }
  }

  lemma TakenBecome(db: Db, phase: Phase, locked: set<TaskId>, rows: seq<Due>)
    requires Increasing(rows, Earlier) && forall r <- rows :: r in DueRows(db, phase, locked)
    ensures Became(db.tasks, ReapAll(db, phase, Ids(rows)).tasks, Failed) == SpentIn(db.tasks, rows)
  {
    DistinctIds(db, phase, locked, rows);
    ReapAllEffect(db, phase, Ids(rows));
    forall id ensures id in Became(db.tasks, ReapAll(db, phase, Ids(rows)).tasks, Failed) <==> id in SpentIn(db.tasks, rows) {
      ListedIds(rows, id);
    }
  }

  /** The failure counter of a phase is the number of tasks it left FAILED. */
  lemma FailuresCounted(db: Db, phase: Phase, locked: set<TaskId>, size: nat, batches: nat, requeued: nat, failed: nat)
    requires ReaperLoop.Counted(db, phase, locked, size, batches, requeued, failed)
    ensures failed == |Became(db.tasks, Drained(db, phase, locked, size, batches).tasks, Failed)|
  {
    var taken := Taken(db, phase, locked, size, batches);
    TakenIsHead(db, phase, locked, taken);
    TakenBecome(db, phase, locked, taken);
    DistinctIds(db, phase, locked, taken);
    forall i, j | 0 <= i < j < |taken| ensures taken[i].id != taken[j].id { assert Ids(taken)[i] != Ids(taken)[j]; }
    ExhaustedIsSpent(db.tasks, taken);
  }

  lemma DrainClock(db: Db, phase: Phase, locked: set<TaskId>, size: nat, batches: nat)
    ensures Drained(db, phase, locked, size, batches).now == db.now
  {
    var taken := Taken(db, phase, locked, size, batches);
    TakenIsHead(db, phase, locked, taken);
    DistinctIds(db, phase, locked, taken);
    ReapAllEffect(db, phase, Ids(taken));
  }

  lemma SameOrStopped(db: Db, phase: Phase, locked: set<TaskId>, size: nat, batches: nat, id: TaskId)
    ensures var after := Drained(db, phase, locked, size, batches);
      id in after.tasks ==> id in db.tasks && (after.tasks[id] == db.tasks[id] || after.tasks[id].state != Running)
  {
    SweepTouchesOnlyTaken(db, phase, locked, size, batches);
  }

  lemma DrainOnlyRecovers(db: Db, phase: Phase, locked: set<TaskId>, size: nat, batches: nat, other: Phase)
    ensures var after := Drained(db, phase, locked, size, batches);
      after.now == db.now && OverdueIds(after, other, locked) <= OverdueIds(db, other, locked)
  {
    DrainClock(db, phase, locked, size, batches);
    forall id | id in OverdueIds(Drained(db, phase, locked, size, batches), other, locked) ensures id in OverdueIds(db, other, locked) {
      SameOrStopped(db, phase, locked, size, batches, id);
    }
  }

  lemma DrainEmpties(db: Db, phase: Phase, locked: set<TaskId>, size: nat, batches: nat)
    requires |OverdueIds(db, phase, locked)| <= size * batches
    ensures OverdueIds(Drained(db, phase, locked, size, batches), phase, locked) == {}
  {
    SweepCompleteness(db, phase, locked, size, batches);
    DueRowsAre(db, phase, locked);
    DueByIds(db, phase, OverdueIds(db, phase, locked));
    var after := Drained(db, phase, locked, size, batches);
    DueRowsAre(after, phase, locked);
    DueByIds(after, phase, OverdueIds(after, phase, locked));
  }

  lemma {:induction false} RunsAtMost(due: nat, size: nat, batches: nat)
    ensures BatchesRun(due, size, batches) <= batches
  {
    if batches > 0 && due >= size { RunsAtMost(due - size, size, batches - 1); }
  }

  /** A sweep that is not stopped, with batches enough for each of its two backlogs, leaves nothing overdue in
      either sense, other transactions' rows aside. */
  lemma FullSweepLeavesNone(db: Db, locked: set<TaskId>, size: nat, maxBatches: nat, polls: nat)
    requires polls >= maxBatches + maxBatches
    requires |OverdueIds(db, LeasePhase, locked)| <= size * maxBatches && |OverdueIds(db, HungPhase, locked)| <= size * maxBatches
    ensures var after := Swept(db, locked, size, maxBatches, polls);
      after.now == db.now && OverdueIds(after, LeasePhase, locked) == {} && OverdueIds(after, HungPhase, locked) == {}
  {
    var first := Drained(db, LeasePhase, locked, size, maxBatches);
    RunsAtMost(|Backlog(db, LeasePhase, locked)|, size, maxBatches);
    DrainEmpties(db, LeasePhase, locked, size, maxBatches);
    DrainOnlyRecovers(db, LeasePhase, locked, size, maxBatches, HungPhase);
    SubsetSize(OverdueIds(first, HungPhase, locked), OverdueIds(db, HungPhase, locked));
    DrainEmpties(first, HungPhase, locked, size, maxBatches);
    DrainOnlyRecovers(first, HungPhase, locked, size, maxBatches, LeasePhase);
    assert Swept(db, locked, size, maxBatches, polls) == Drained(first, HungPhase, locked, size, maxBatches);
  }

  // ---- pages: created_at and id, both descending --------------------------------------------------------------------

  /** The rows of a listing: of this tenant and in this state, where one is asked for, and older than the
      cursor, or as old with a smaller id. */
  predicate IsAsked(tasks: map<TaskId, Task>, tenant: Option<TenantId>, state: Option<State>, cursor: Option<Key>, id: TaskId) {
    && id in tasks
    && (tenant.Some? ==> tasks[id].tenant == tenant.value) && (state.Some? ==> tasks[id].state == state.value)
    && (cursor.Some? ==>
          || tasks[id].createdAt < cursor.value.createdAt
          || (tasks[id].createdAt == cursor.value.createdAt && id < cursor.value.id))
  }

  /** Row `a` is listed above row `b`. */
  predicate IsAbove(tasks: map<TaskId, Task>, a: TaskId, b: TaskId) {
    && a in tasks && b in tasks
    && (tasks[b].createdAt < tasks[a].createdAt || (tasks[b].createdAt == tasks[a].createdAt && b < a))
  }

  lemma AskedKeys(tasks: map<TaskId, Task>, tenant: Option<TenantId>, state: Option<State>, cursor: Option<Key>, k: Key)
    ensures k in Below(Matching(tasks, tenant, state), cursor) <==>
            IsAsked(tasks, tenant, state, cursor, k.id) && k.createdAt == tasks[k.id].createdAt
  {}

  lemma ListedByColumns(tasks: map<TaskId, Task>, tenant: Option<TenantId>, state: Option<State>, cursor: Option<Key>)
    ensures var rows := Listed(Below(Matching(tasks, tenant, state), cursor));
      && (forall i | 0 <= i < |rows| ::
            IsAsked(tasks, tenant, state, cursor, rows[i].id) && rows[i].createdAt == tasks[rows[i].id].createdAt)
      && (forall i, j | 0 <= i < j < |rows| :: IsAbove(tasks, rows[i].id, rows[j].id))
      && (forall id :: IsAsked(tasks, tenant, state, cursor, id) ==> Key(tasks[id].createdAt, id) in rows)
  {
    var keys := Below(Matching(tasks, tenant, state), cursor);
    var rows := Listed(keys);
    ListedFacts(keys);
    forall i | 0 <= i < |rows|
      ensures IsAsked(tasks, tenant, state, cursor, rows[i].id) && rows[i].createdAt == tasks[rows[i].id].createdAt
    {
      assert rows[i] in Elements(rows);
      AskedKeys(tasks, tenant, state, cursor, rows[i]);
    }
    forall i, j | 0 <= i < j < |rows| ensures IsAbove(tasks, rows[i].id, rows[j].id) {
      assert Newer(rows[i], rows[j]);
    }
    forall id | IsAsked(tasks, tenant, state, cursor, id) ensures Key(tasks[id].createdAt, id) in rows {
      AskedKeys(tasks, tenant, state, cursor, Key(tasks[id].createdAt, id));
      assert Key(tasks[id].createdAt, id) in Elements(rows);
    }
  }

  /** A page, on the stored columns: rows asked for, newest first. */
  lemma PageOnColumns(tasks: map<TaskId, Task>, tenant: Option<TenantId>, state: Option<State>, limit: nat, cursor: Option<Key>)
    requires limit > 0
    ensures var page := PageOf(Matching(tasks, tenant, state), limit, cursor);
      && page.Page? && |page.rows| <= limit
      && (forall i | 0 <= i < |page.rows| ::
            IsAsked(tasks, tenant, state, cursor, page.rows[i].id) && page.rows[i].createdAt == tasks[page.rows[i].id].createdAt)
      && (forall i, j | 0 <= i < j < |page.rows| :: IsAbove(tasks, page.rows[i].id, page.rows[j].id))
  {
    ListedByColumns(tasks, tenant, state, cursor);
  }

  /** Without a next cursor the page holds every row asked for. With one it is full, the cursor is its last
      row, some row asked for stands below it, and every row asked for is on the page or below it. */
  lemma CursorOnColumns(tasks: map<TaskId, Task>, tenant: Option<TenantId>, state: Option<State>, limit: nat, cursor: Option<Key>)
    requires limit > 0
    ensures var page := PageOf(Matching(tasks, tenant, state), limit, cursor);
      && page.Page?
      && (page.next.None? ==> forall id :: IsAsked(tasks, tenant, state, cursor, id) ==> Key(tasks[id].createdAt, id) in page.rows)
      && (page.next.Some? ==>
            && |page.rows| == limit && page.next.value == page.rows[limit - 1]
            && (exists id :: IsAsked(tasks, tenant, state, cursor, id) && IsAbove(tasks, page.next.value.id, id))
            && (forall id :: IsAsked(tasks, tenant, state, cursor, id) ==>
                  Key(tasks[id].createdAt, id) in page.rows || IsAbove(tasks, page.next.value.id, id)))
  {
    var rows := Listed(Below(Matching(tasks, tenant, state), cursor));
    ListedByColumns(tasks, tenant, state, cursor);
    if |rows| > limit {
      assert IsAbove(tasks, rows[limit - 1].id, rows[limit].id);
      forall id | IsAsked(tasks, tenant, state, cursor, id)
        ensures Key(tasks[id].createdAt, id) in rows[..limit] || IsAbove(tasks, rows[limit - 1].id, id)
      {
        OnPageOrBelow(tasks, rows, limit, Key(tasks[id].createdAt, id));
      }
    }
  }

  lemma OnPageOrBelow(tasks: map<TaskId, Task>, rows: seq<Key>, limit: nat, k: Key)
    requires 0 < limit < |rows| && k in rows && forall i, j | 0 <= i < j < |rows| :: IsAbove(tasks, rows[i].id, rows[j].id)
    ensures k in rows[..limit] || IsAbove(tasks, rows[limit - 1].id, k.id)
  {
    var i :| 0 <= i < |rows| && rows[i] == k;
    if i < limit { assert rows[..limit][i] == k; }
  }

  /** A page of no rows has nothing to make a cursor from, unless there is nothing to list. */
  lemma EmptyPage(tasks: map<TaskId, Task>, tenant: Option<TenantId>, state: Option<State>, cursor: Option<Key>)
    ensures PageOf(Matching(tasks, tenant, state), 0, cursor) ==
            if exists id :: IsAsked(tasks, tenant, state, cursor, id) then IndexError else Page([], None)
  {
    ListedByColumns(tasks, tenant, state, cursor);
    var rows := Listed(Below(Matching(tasks, tenant, state), cursor));
    if rows != [] { assert IsAsked(tasks, tenant, state, cursor, rows[0].id); }
  }
}
