/** What the rounds of a claim achieve: facts about the greedy pass, and the loop that refines it. */
module Rounds {
  import opened Wrappers
  import opened Orders
  import opened Tables
  import opened Agents
  import opened Claim

  ghost predicate DistinctRows(rows: seq<Candidate>) {
    forall i, j :: 0 <= i < j < |rows| ==> rows[i].id != rows[j].id
  }

  ghost predicate Distinct(ids: seq<TaskId>) {
    forall i, j :: 0 <= i < j < |ids| ==> ids[i] != ids[j]
  }

  lemma OrderedRows(db: Db, caps: seq<string>, skip: set<TaskId>)
    ensures var rows := Order(EligibleRows(db, caps, skip));
      && DistinctRows(rows)
      && forall r <- rows :: r.id in db.tasks && r.id !in skip && r == CandidateOf(r.id, db.tasks[r.id])
                             && Ready(db.tasks[r.id], db.now) && Eligible(db.tasks[r.id], caps)
  {
    var rows := Order(EligibleRows(db, caps, skip));
    OrderFacts(EligibleRows(db, caps, skip));
    forall r | r in rows ensures r in EligibleRows(db, caps, skip) {
      assert r in Elements(rows);
    }
    forall i, j | 0 <= i < j < |rows| ensures rows[i].id != rows[j].id {
      assert Before(rows[i], rows[j]);
      assert rows[i] in EligibleRows(db, caps, skip) && rows[j] in EligibleRows(db, caps, skip);
    }
  }

  lemma {:induction false} GreedyFrom(db: Db, rows: seq<Candidate>, limit: nat)
    ensures forall id <- Greedy(db, rows, limit) :: exists r :: r in rows && r.id == id
    ensures DistinctRows(rows) ==> Distinct(Greedy(db, rows, limit))
  {
    if rows == [] {
    } else {
      var front, last := rows[..|rows| - 1], rows[|rows| - 1];
      GreedyFrom(db, front, limit);
      assert rows == front + [last];
      var picked := Greedy(db, front, limit);
      forall id | id in Greedy(db, rows, limit) ensures exists r :: r in rows && r.id == id {
        if id in picked {
          var r :| r in front && r.id == id;
          assert r in rows;
        } else {
          assert last in rows && last.id == id;
        }
      }
      if DistinctRows(rows) {
        assert last.id !in picked;
      }
    }
  }

  /** Later rows never change what earlier rows were given. */
  lemma {:induction false} GreedyPrefix(db: Db, rows: seq<Candidate>, n: nat, limit: nat)
    requires n <= |rows|
    ensures Greedy(db, rows[..n], limit) <= Greedy(db, rows, limit)
    ensures |Greedy(db, rows, limit)| <= |Greedy(db, rows[..n], limit)| + |rows| - n
    decreases |rows|
  {
    if n == |rows| {
      assert rows[..n] == rows;
    } else {
      var front := rows[..|rows| - 1];
      GreedyPrefix(db, front, n, limit);
      assert front[..n] == rows[..n];
    }
  }

  /** No tenant is given more than its slack. */
  lemma {:induction false} GreedyWithinSlack(db: Db, rows: seq<Candidate>, limit: nat, tenant: TenantId)
    ensures var count := CountOf(db.tasks, Greedy(db, rows, limit), tenant);
            count == 0 || count <= Slack(db, tenant)
  {
    if rows == [] {
    } else {
      GreedyWithinSlack(db, rows[..|rows| - 1], limit, tenant);
      var picked := Greedy(db, rows[..|rows| - 1], limit);
      assert (picked + [rows[|rows| - 1].id])[..|picked|] == picked;
    }
  }

  /** A row that was not taken found the limit reached or its tenant's slack used up by earlier rows. */
  lemma {:induction false} GreedySkips(db: Db, rows: seq<Candidate>, j: nat, limit: nat)
    requires j < |rows| && DistinctRows(rows)
    ensures var before := Greedy(db, rows[..j], limit);
            rows[j].id !in Greedy(db, rows, limit) ==>
              |before| == limit || NoSlack(db, before, rows[j].id)
  {
    assert rows[..j + 1][..j] == rows[..j];
    var upto := rows[..j + 1];
    assert upto[|upto| - 1] == rows[j];
    GreedyPrefix(db, rows, j + 1, limit);
    var before := Greedy(db, rows[..j], limit);
    var picked := Greedy(db, upto, limit);
    assert picked == before || (picked == before + [rows[j].id] && rows[j].id in picked);
  }

  /** Within the rows seen, the limit is never what stops a row: only slack is. */
  lemma {:induction false} SeenBelowLimit(db: Db, rows: seq<Candidate>, limit: nat, rounds: nat, j: nat)
    requires j < Seen(db, rows, limit, rounds)
    ensures |Greedy(db, rows[..j], limit)| < limit
  {
    var n := Seen(db, rows, limit, rounds - 1);
    if j < n {
      SeenBelowLimit(db, rows, limit, rounds - 1, j);
    } else {
      GreedyPrefix(db, rows[..j], n, limit);
      assert rows[..j][..n] == rows[..n];
    }
  }

  lemma PickStops(db: Db, before: seq<TaskId>, picked: seq<TaskId>, id: TaskId, limit: nat)
    requires picked <= before && |before| <= limit
    ensures Pick(db, before, id, limit) == picked <==> before == picked && (|picked| == limit || NoSlack(db, picked, id))
  {}

  /** Every row from the n-th on belongs to a tenant without slack. */
  ghost predicate AllBlocked(db: Db, rows: seq<Candidate>, n: nat, picked: seq<TaskId>) {
    forall j | n <= j < |rows| :: NoSlack(db, picked, rows[j].id)
  }

  lemma BlockedSnoc(db: Db, front: seq<Candidate>, last: Candidate, n: nat, picked: seq<TaskId>)
    requires n <= |front|
    ensures AllBlocked(db, front + [last], n, picked) <==> NoSlack(db, picked, last.id) && AllBlocked(db, front, n, picked)
  {
    var rows := front + [last];
    assert rows[|front|] == last;
    assert forall j | n <= j < |front| :: rows[j] == front[j];
  }

  /** Rows after a prefix add nothing exactly when the limit is reached or every one of their tenants
      has run out of slack. */
  lemma {:induction false} GreedyStops(db: Db, rows: seq<Candidate>, n: nat, limit: nat)
    requires n <= |rows|
    ensures var picked := Greedy(db, rows[..n], limit);
      Greedy(db, rows, limit) == picked <==>
        (|picked| == limit || AllBlocked(db, rows, n, picked))
    decreases |rows|
  {
    var picked := Greedy(db, rows[..n], limit);
    if n == |rows| {
      assert rows[..n] == rows;
    } else {
      var front, last := rows[..|rows| - 1], rows[|rows| - 1];
      GreedyStops(db, front, n, limit);
      assert front[..n] == rows[..n];
      GreedyPrefix(db, front, n, limit);
      PickStops(db, Greedy(db, front, limit), picked, last.id, limit);
      BlockedSnoc(db, front, last, n, picked);
      FrontAndLast(rows);
    }
  }

  /** The guarantee of a claim: duplicate-free, at most `limit`, drawn in policy order from the ready,
      eligible, unlocked rows, never beyond a tenant's slack; and every row it looked at and left had
      its tenant's slack used up by rows before it. */
  lemma ClaimGuarantee(db: Db, caps: seq<string>, limit: nat, locked: set<TaskId>, rounds: nat)
    ensures var ids := ClaimWithin(db, caps, limit, locked, rounds);
            var rows := Order(EligibleRows(db, caps, locked));
            var n := Seen(db, rows, limit, rounds);
      && |ids| <= limit && Distinct(ids)
      && (forall id <- ids :: id in db.tasks && id !in locked && Ready(db.tasks[id], db.now) && Eligible(db.tasks[id], caps))
      && (forall tenant :: CountOf(db.tasks, ids, tenant) == 0 || CountOf(db.tasks, ids, tenant) <= Slack(db, tenant))
      && (forall j | 0 <= j < n && rows[j].id !in ids ::
            var before := Greedy(db, rows[..j], limit);
            && before <= ids
            && NoSlack(db, before, rows[j].id))
  {
    var rows := Order(EligibleRows(db, caps, locked));
    var n := Seen(db, rows, limit, rounds);
    OrderedRows(db, caps, locked);
    GreedyFrom(db, rows[..n], limit);
    forall tenant { GreedyWithinSlack(db, rows[..n], limit, tenant); }
    forall j | 0 <= j < n && rows[j].id !in Greedy(db, rows[..n], limit)
      ensures var before := Greedy(db, rows[..j], limit);
        && before <= Greedy(db, rows[..n], limit)
        && NoSlack(db, before, rows[j].id)
    {
      assert rows[..n][..j] == rows[..j];
      GreedySkips(db, rows[..n], j, limit);
      GreedyPrefix(db, rows[..n], j, limit);
      SeenBelowLimit(db, rows, limit, rounds, j);
    }
  }

  /** Stopping early loses nothing: a round that sees no new row means the whole greedy answer. */
  lemma EarlyStopIsComplete(db: Db, rows: seq<Candidate>, limit: nat, rounds: nat)
    requires Seen(db, rows, limit, rounds + 1) == Seen(db, rows, limit, rounds)
    ensures Greedy(db, rows[..Seen(db, rows, limit, rounds)], limit) == Greedy(db, rows, limit)
  {
    GreedyStops(db, rows, Seen(db, rows, limit, rounds), limit);
  }

  lemma {:induction false} SeenStays(db: Db, rows: seq<Candidate>, limit: nat, r: nat, rounds: nat)
    requires r <= rounds && Seen(db, rows, limit, r + 1) == Seen(db, rows, limit, r)
    ensures Seen(db, rows, limit, rounds) == Seen(db, rows, limit, r)
  {
    if r == rounds {
    } else {
      SeenStays(db, rows, limit, r, rounds - 1);
    }
  }

  // ---- the greedy pass without the pass: ranks ---------------------------------------------------------

  function RowsOf(db: Db, rows: seq<Candidate>, tenant: TenantId): nat {
    if rows == [] then 0 else
      RowsOf(db, rows[..|rows| - 1], tenant) + if TenantOf(db.tasks, rows[|rows| - 1].id) == tenant then 1 else 0
  }

  /** A row is within quota when fewer rows of its tenant come before it than its tenant has slack. */
  predicate InQuota(db: Db, before: seq<Candidate>, row: Candidate) {
    var tenant := TenantOf(db.tasks, row.id);
    RowsOf(db, before, tenant) < Slack(db, tenant)
  }

  /** The rows within quota, in order. */
  function Quota(db: Db, rows: seq<Candidate>): seq<TaskId> {
    if rows == [] then [] else
      var front, last := rows[..|rows| - 1], rows[|rows| - 1];
      Quota(db, front) + if InQuota(db, front, last) then [last.id] else []
  }

  lemma {:induction false} QuotaCount(db: Db, rows: seq<Candidate>, tenant: TenantId)
    ensures var n := CountOf(db.tasks, Quota(db, rows), tenant); var seen := RowsOf(db, rows, tenant); var slack := Slack(db, tenant);
      n == if slack <= 0 then 0 else if seen < slack then seen else slack
  {
    if rows == [] {
    } else {
      var front, last := rows[..|rows| - 1], rows[|rows| - 1];
      QuotaCount(db, front, tenant);
      if InQuota(db, front, last) {
        CountSnoc(db.tasks, Quota(db, front), last.id, tenant);
      } else {
        assert Quota(db, rows) == Quota(db, front);
      }
    }
  }

  /** What the greedy pass takes, said without running it: the first `limit` rows within quota. */
  lemma {:induction false} GreedyIsQuota(db: Db, rows: seq<Candidate>, limit: nat)
    ensures Greedy(db, rows, limit) == Cut(limit, Quota(db, rows))
  {
    if rows == [] {
    } else {
      var front, last := rows[..|rows| - 1], rows[|rows| - 1];
      GreedyIsQuota(db, front, limit);
      QuotaCount(db, front, TenantOf(db.tasks, last.id));
      CutSnoc(limit, Quota(db, front), last.id);
    }
  }

  lemma CutSnoc(limit: nat, q: seq<TaskId>, id: TaskId)
    ensures Cut(limit, q + [id]) == if |Cut(limit, q)| < limit then Cut(limit, q) + [id] else Cut(limit, q)
  {}

  /** Every later row is over its tenant's quota. */
  ghost predicate NoneLeft(db: Db, rows: seq<Candidate>, n: nat) {
    forall j | n <= j < |rows| :: !InQuota(db, rows[..j], rows[j])
  }

  lemma NoneLeftSnoc(db: Db, front: seq<Candidate>, last: Candidate, n: nat)
    requires n <= |front|
    ensures NoneLeft(db, front + [last], n) <==> NoneLeft(db, front, n) && !InQuota(db, front, last)
  {
    var rows := front + [last];
    assert rows[..|front|] == front && rows[|front|] == last;
    assert forall j | 0 <= j < |front| :: front[..j] == rows[..j] && front[j] == rows[j];
  }

  lemma QuotaSnoc(db: Db, front: seq<Candidate>, last: Candidate)
    ensures Quota(db, front + [last]) == Quota(db, front) + if InQuota(db, front, last) then [last.id] else []
  {
    assert (front + [last])[..|front|] == front;
  }

  lemma {:induction false} QuotaGrows(db: Db, rows: seq<Candidate>, n: nat)
    requires n <= |rows|
    ensures Quota(db, rows[..n]) <= Quota(db, rows)
    ensures Quota(db, rows) == Quota(db, rows[..n]) <==> NoneLeft(db, rows, n)
    decreases |rows|
  {
    if n == |rows| {
      assert rows[..n] == rows;
    } else {
      var front, last := rows[..|rows| - 1], rows[|rows| - 1];
      FrontAndLast(rows);
      QuotaGrows(db, front, n);
      assert front[..n] == rows[..n];
      QuotaSnoc(db, front, last);
      NoneLeftSnoc(db, front, last, n);
    }
  }

  /** How many rows are over their tenant's quota. */
  function OverQuota(db: Db, rows: seq<Candidate>): nat {
    if rows == [] then 0 else
      var front, last := rows[..|rows| - 1], rows[|rows| - 1];
      OverQuota(db, front) + if InQuota(db, front, last) then 0 else 1
  }

  /** How far the rounds get, counted on the offered rows alone: each round makes up for the rows over
      quota among those before it. */
  function Reached(db: Db, rows: seq<Candidate>, limit: nat, rounds: nat): (n: nat)
    ensures n <= |rows|
  {
    if rounds == 0 then 0 else Min(limit + OverQuota(db, rows[..Reached(db, rows, limit, rounds - 1)]), |rows|)
  }

  lemma {:induction false} WithinOrOver(db: Db, rows: seq<Candidate>)
    ensures |Quota(db, rows)| + OverQuota(db, rows) == |rows|
  {
    if rows == [] {
    } else {
      WithinOrOver(db, rows[..|rows| - 1]);
    }
  }

  lemma {:induction false} QuotaSlowly(db: Db, rows: seq<Candidate>, n: nat, m: nat)
    requires n <= m <= |rows|
    ensures |Quota(db, rows[..m])| <= |Quota(db, rows[..n])| + m - n
  {
    if n == m {
    } else {
      QuotaSlowly(db, rows, n, m - 1);
      QuotaSnoc(db, rows[..m - 1], rows[m - 1]);
      assert rows[..m - 1] + [rows[m - 1]] == rows[..m];
    }
  }

  lemma GreedyCount(db: Db, rows: seq<Candidate>, limit: nat)
    requires |Quota(db, rows)| <= limit
    ensures |Greedy(db, rows, limit)| + OverQuota(db, rows) == |rows|
  {
    GreedyIsQuota(db, rows, limit);
    WithinOrOver(db, rows);
  }

  lemma NextReach(db: Db, rows: seq<Candidate>, limit: nat, n: nat, m: nat)
    requires n <= |rows| && |Quota(db, rows[..n])| <= limit
    requires m == Min(n + (limit - |Greedy(db, rows[..n], limit)|), |rows|)
    ensures m == Min(limit + OverQuota(db, rows[..n]), |rows|) && |Quota(db, rows[..m])| <= limit
  {
    GreedyCount(db, rows[..n], limit);
    WithinOrOver(db, rows[..n]);
    QuotaSlowly(db, rows, n, m);
  }

  lemma ReachedStep(db: Db, rows: seq<Candidate>, limit: nat, round: nat, n: nat)
    requires n == Reached(db, rows, limit, round)
    ensures Reached(db, rows, limit, round + 1) == Min(limit + OverQuota(db, rows[..n]), |rows|)
  {}

  /** After so many rounds both counts say the same. */
  ghost predicate RoundsAgree(db: Db, rows: seq<Candidate>, limit: nat, round: nat) {
    var n := Seen(db, rows, limit, round);
    n == Reached(db, rows, limit, round) && |Quota(db, rows[..n])| <= limit
  }

  lemma NextAgrees(db: Db, rows: seq<Candidate>, limit: nat, round: nat)
    requires RoundsAgree(db, rows, limit, round)
    ensures RoundsAgree(db, rows, limit, round + 1)
  {
    var n := Seen(db, rows, limit, round);
    SeenStep(db, rows, limit, round);
    NextReach(db, rows, limit, n, Seen(db, rows, limit, round + 1));
    ReachedStep(db, rows, limit, round, n);
  }

  lemma {:induction false} SeenIsReached(db: Db, rows: seq<Candidate>, limit: nat, rounds: nat)
    ensures RoundsAgree(db, rows, limit, rounds)
  {
    if rounds == 0 {
    } else {
      SeenIsReached(db, rows, limit, rounds - 1);
      NextAgrees(db, rows, limit, rounds - 1);
    }
  }

  /** The bound on rounds is a real restriction. A call gives the full greedy answer exactly when the rows
      its rounds reach hold `limit` rows within quota, or no row after them is within quota. */
  lemma ClaimIsFullGreedyIff(db: Db, caps: seq<string>, limit: nat, locked: set<TaskId>, rounds: nat)
    ensures var rows := Order(EligibleRows(db, caps, locked)); var n := Reached(db, rows, limit, rounds);
      ClaimWithin(db, caps, limit, locked, rounds) == Greedy(db, rows, limit)
      <==> (|Quota(db, rows[..n])| >= limit || NoneLeft(db, rows, n))
  {
    var rows := Order(EligibleRows(db, caps, locked));
    SeenIsReached(db, rows, limit, rounds);
    FullGreedyIff(db, rows, Seen(db, rows, limit, rounds), limit);
  }

  lemma FullGreedyIff(db: Db, rows: seq<Candidate>, n: nat, limit: nat)
    requires n <= |rows|
    ensures Greedy(db, rows[..n], limit) == Greedy(db, rows, limit) <==> (|Quota(db, rows[..n])| >= limit || NoneLeft(db, rows, n))
  {
    GreedyIsQuota(db, rows, limit);
    GreedyIsQuota(db, rows[..n], limit);
    QuotaGrows(db, rows, n);
    CutPrefix(limit, Quota(db, rows[..n]), Quota(db, rows));
  }

  lemma CutPrefix(limit: nat, a: seq<TaskId>, b: seq<TaskId>)
    requires a <= b
    ensures Cut(limit, a) == Cut(limit, b) <==> |a| >= limit || a == b
  {}

  // ---- a call that claims nothing --------------------------------------------------------------------------

  /** None of the first n rows could be taken even as the first one. */
  ghost predicate Blocked(db: Db, rows: seq<Candidate>, n: nat) {
    forall j | 0 <= j < n && j < |rows| :: NoSlack(db, [], rows[j].id)
  }

  lemma {:induction false} BlockedIff(db: Db, rows: seq<Candidate>, n: nat, limit: nat)
    requires n <= |rows| && limit > 0
    ensures Greedy(db, rows[..n], limit) == [] <==> Blocked(db, rows, n)
  {
    if n == 0 {
    } else {
      BlockedIff(db, rows, n - 1, limit);
      GreedySnoc(db, rows[..n - 1], rows[n - 1], limit);
      assert rows[..n - 1] + [rows[n - 1]] == rows[..n];
    }
  }

  lemma BlockedPrefix(db: Db, rows: seq<Candidate>, m: nat, n: nat, limit: nat)
    requires m <= n <= |rows| && Greedy(db, rows[..n], limit) == []
    ensures Greedy(db, rows[..m], limit) == []
  {
    assert rows[..n][..m] == rows[..m];
    GreedyPrefix(db, rows[..n], m, limit);
  }

  lemma SeenGrows(db: Db, rows: seq<Candidate>, limit: nat, round: nat)
    ensures Seen(db, rows, limit, round) <= Seen(db, rows, limit, round + 1)
    ensures Greedy(db, rows[..Seen(db, rows, limit, round)], limit) == [] ==>
              Seen(db, rows, limit, round + 1) == Min(Seen(db, rows, limit, round) + limit, |rows|)
  {
    SeenStep(db, rows, limit, round);
  }

  /** A round that still has taken nothing had a predecessor that took nothing, `limit` rows shorter. */
  lemma BlockedRound(db: Db, rows: seq<Candidate>, limit: nat, rounds: nat)
    requires rounds > 0 && Greedy(db, rows[..Seen(db, rows, limit, rounds)], limit) == []
    ensures Greedy(db, rows[..Seen(db, rows, limit, rounds - 1)], limit) == []
    ensures Seen(db, rows, limit, rounds) == Min(Seen(db, rows, limit, rounds - 1) + limit, |rows|)
  {
    SeenGrows(db, rows, limit, rounds - 1);
    BlockedPrefix(db, rows, Seen(db, rows, limit, rounds - 1), Seen(db, rows, limit, rounds), limit);
  }

  lemma MinGrows(limit: nat, rounds: nat, n: nat)
    requires rounds > 0
    ensures Min(Min(limit * (rounds - 1), n) + limit, n) == Min(limit * rounds, n)
  {
    assert limit * rounds == limit * (rounds - 1) + limit;
  }

  /** While nothing is taken every round looks at `limit` more rows. */
  lemma {:induction false} BlockedSeen(db: Db, rows: seq<Candidate>, limit: nat, rounds: nat)
    requires Greedy(db, rows[..Seen(db, rows, limit, rounds)], limit) == []
    ensures Seen(db, rows, limit, rounds) == Min(limit * rounds, |rows|)
  {
    if rounds == 0 {
    } else {
      BlockedRound(db, rows, limit, rounds);
      BlockedSeen(db, rows, limit, rounds - 1);
      MinGrows(limit, rounds, |rows|);
    }
  }

  lemma {:induction false} SeenAtMost(db: Db, rows: seq<Candidate>, limit: nat, rounds: nat)
    ensures Seen(db, rows, limit, rounds) <= limit * rounds
  {
    if rounds == 0 {
    } else {
      assert limit * rounds == limit * (rounds - 1) + limit;
      SeenAtMost(db, rows, limit, rounds - 1);
      SeenStep(db, rows, limit, rounds - 1);
    }
  }

  /** How many rows a call looks at if it takes none of them. */
  function Reach(limit: nat, rounds: nat): nat {
    limit * rounds
  }

  /** A call comes back empty exactly when every one of the first limit * rounds rows it is offered belongs
      to a tenant that has no slack at all, whatever the rows after them are. */
  lemma EmptyClaimIff(db: Db, caps: seq<string>, limit: nat, locked: set<TaskId>, rounds: nat)
    requires limit > 0
    ensures ClaimWithin(db, caps, limit, locked, rounds) == [] <==>
            Blocked(db, Order(EligibleRows(db, caps, locked)), Reach(limit, rounds))
  {
    EmptyPassIff(db, Order(EligibleRows(db, caps, locked)), limit, rounds);
  }

  lemma EmptyPassIff(db: Db, rows: seq<Candidate>, limit: nat, rounds: nat)
    requires limit > 0
    ensures Greedy(db, rows[..Seen(db, rows, limit, rounds)], limit) == [] <==> Blocked(db, rows, Reach(limit, rounds))
  {
    var n := Seen(db, rows, limit, rounds);
    BlockedIff(db, rows, n, limit);
    SeenAtMost(db, rows, limit, rounds);
    if Greedy(db, rows[..n], limit) == [] { BlockedSeen(db, rows, limit, rounds); }
  }

  /** So a call fails its caller, empty although the greedy pass takes something, exactly when the first
      limit * rounds offered rows are blocked and a later one is not. */
  lemma StarvedIff(db: Db, rows: seq<Candidate>, caps: seq<string>, limit: nat, locked: set<TaskId>, rounds: nat)
    requires limit > 0 && rows == Order(EligibleRows(db, caps, locked))
    ensures ClaimWithin(db, caps, limit, locked, rounds) == [] && Greedy(db, rows, limit) != [] <==>
            Blocked(db, rows, Reach(limit, rounds)) && !Blocked(db, rows, |rows|)
  {
    EmptyClaimIff(db, caps, limit, locked, rounds);
    BlockedIff(db, rows, |rows|, limit);
    assert rows[..|rows|] == rows;
  }

  // ---- the loops -----------------------------------------------------------------------------------

  /** `_fetch_candidates`. Both strategies return the first `need` rows of the filtered, ordered table. */
  method FetchCandidates(conn: Connection, caps: seq<string>, need: nat, skip: set<TaskId>)
    returns (batch: seq<Candidate>)
    ensures batch == Best(need, EligibleRows(conn.Snapshot(), caps, skip))
  {
    var db := conn.Snapshot();
    var normalised := Sorted(Normalised(caps));
    if |normalised| <= MAX_KEYED_CLAIM_CAPABILITIES {
      var keys := SatisfiableCapabilityKeys(normalised);
      NormalisedAreClean(caps);
      CleanAreKept(normalised);
      var rows: set<Candidate> := {};
      for i := 0 to |keys|
        invariant rows == Branches(db, Elements(keys[..i]), need, skip)
      {
        BranchesGrow(db, keys, i, need, skip);
        rows := rows + Elements(Best(need, KeyedRows(db, keys[i], skip)));
      }
      assert keys[..|keys|] == keys;
      KeyedMergeIsFilter(db, caps, need, skip);
      batch := Best(need, rows);
    } else {
      batch := Best(need, EligibleRows(db, caps, skip));
    }
  }

  lemma BranchesGrow(db: Db, keys: seq<string>, i: nat, need: nat, skip: set<TaskId>)
    requires i < |keys|
    ensures Branches(db, Elements(keys[..i + 1]), need, skip)
            == Branches(db, Elements(keys[..i]), need, skip) + Elements(Best(need, KeyedRows(db, keys[i], skip)))
  {
    assert keys[..i + 1] == keys[..i] + [keys[i]];
  }

  function IdsOf(rows: seq<Candidate>): set<TaskId> {
    set r | r in rows :: r.id
  }

  /** The next batch is the next slice of the ordered table. */
  lemma NextBatch(db: Db, caps: seq<string>, locked: set<TaskId>, seen: set<TaskId>, n: nat, need: nat)
    requires var rows := Order(EligibleRows(db, caps, locked));
             n <= |rows| && seen == IdsOf(rows[..n])
    ensures var rows := Order(EligibleRows(db, caps, locked));
            Best(need, EligibleRows(db, caps, locked + seen)) == Cut(need, rows[n..])
  {
    BeforeIsTotalOrder();
    var all := EligibleRows(db, caps, locked);
    var rows := Order(all);
    NotSeen(db, caps, locked, seen, n);
    TakeAfter(all, n, need, Before);
  }

  lemma NotSeen(db: Db, caps: seq<string>, locked: set<TaskId>, seen: set<TaskId>, n: nat)
    requires var rows := Order(EligibleRows(db, caps, locked));
             n <= |rows| && seen == IdsOf(rows[..n])
    ensures EligibleRows(db, caps, locked + seen)
            == EligibleRows(db, caps, locked) - Elements(Order(EligibleRows(db, caps, locked))[..n])
  {
    var all := EligibleRows(db, caps, locked);
    var rows := Order(all);
    OrderedRows(db, caps, locked);
    forall c | c in all ensures c.id in seen <==> c in rows[..n] {
      if c.id in seen {
        var r :| r in rows[..n] && r.id == c.id;
        assert r in rows && r == CandidateOf(r.id, db.tasks[r.id]);
      }
    }
  }

  lemma GreedySnoc(db: Db, rows: seq<Candidate>, row: Candidate, limit: nat)
    ensures Greedy(db, rows + [row], limit) == Pick(db, Greedy(db, rows, limit), row.id, limit)
  {
    assert (rows + [row])[..|rows|] == rows;
  }

  lemma CountSnoc(tasks: map<TaskId, Task>, ids: seq<TaskId>, id: TaskId, tenant: TenantId)
    ensures CountOf(tasks, ids + [id], tenant) == CountOf(tasks, ids, tenant) + if TenantOf(tasks, id) == tenant then 1 else 0
  {
    assert (ids + [id])[..|ids|] == ids;
  }

  /** `slack.get(tenant, 0)`. */
  function Left(slack: map<TenantId, int>, tenant: TenantId): int {
    if tenant in slack then slack[tenant] else 0
  }

  /** The slack dictionary holds what each known tenant has left. */
  ghost predicate SlackLeft(db: Db, slack: map<TenantId, int>, known: set<TenantId>, claimed: seq<TaskId>) {
    && slack.Keys <= known
    && forall t <- known :: Left(slack, t) == Slack(db, t) - CountOf(db.tasks, claimed, t)
  }

  lemma LeftSpent(db: Db, slack: map<TenantId, int>, claimed: seq<TaskId>, id: TaskId, u: TenantId)
    requires Left(slack, u) == Slack(db, u) - CountOf(db.tasks, claimed, u)
    ensures var t := TenantOf(db.tasks, id);
            Left(slack[t := Left(slack, t) - 1], u) == Slack(db, u) - CountOf(db.tasks, claimed + [id], u)
  {
    CountSnoc(db.tasks, claimed, id, u);
  }

  lemma SlackSpent(db: Db, slack: map<TenantId, int>, known: set<TenantId>, claimed: seq<TaskId>, id: TaskId)
    requires SlackLeft(db, slack, known, claimed) && TenantOf(db.tasks, id) in known
    ensures var t := TenantOf(db.tasks, id);
            SlackLeft(db, slack[t := Left(slack, t) - 1], known, claimed + [id])
  {
    var t := TenantOf(db.tasks, id);
    forall u | u in known ensures Left(slack[t := Left(slack, t) - 1], u) == Slack(db, u) - CountOf(db.tasks, claimed + [id], u) {
      LeftSpent(db, slack, claimed, id, u);
    }
  }

  /** Where a claim stands after the rows `sofar`. */
  ghost predicate Standing(db: Db, sofar: seq<Candidate>, limit: nat, claimed: seq<TaskId>,
                           known: set<TenantId>, slack: map<TenantId, int>)
  {
    claimed == Greedy(db, sofar, limit) && SlackLeft(db, slack, known, claimed)
  }

  /** One turn of the dispatch loop: stop at the limit, pass over a tenant without slack, or take the row. */
  lemma SpendStep(db: Db, sofar: seq<Candidate>, batch: seq<Candidate>, i: nat, limit: nat, claimed: seq<TaskId>,
                  known: set<TenantId>, slack: map<TenantId, int>)
    requires i < |batch| && TenantOf(db.tasks, batch[i].id) in known
    requires Standing(db, sofar + batch[..i], limit, claimed, known, slack)
    ensures var t := TenantOf(db.tasks, batch[i].id);
      if |claimed| >= limit then Standing(db, sofar + batch, limit, claimed, known, slack)
      else if Left(slack, t) <= 0 then Standing(db, sofar + batch[..i + 1], limit, claimed, known, slack)
      else Standing(db, sofar + batch[..i + 1], limit, claimed + [batch[i].id], known, slack[t := Left(slack, t) - 1])
  {
    var before := sofar + batch[..i];
    assert sofar + batch[..i + 1] == before + [batch[i]];
    GreedySnoc(db, before, batch[i], limit);
    SlackSpent(db, slack, known, claimed, batch[i].id);
    if |claimed| >= limit {
      assert sofar + batch == before + batch[i..];
      FullStaysFull(db, before, batch[i..], limit);
    }
  }

  lemma FullStaysFull(db: Db, sofar: seq<Candidate>, more: seq<Candidate>, limit: nat)
    requires |Greedy(db, sofar, limit)| == limit
    ensures Greedy(db, sofar + more, limit) == Greedy(db, sofar, limit)
  {
    assert (sofar + more)[..|sofar|] == sofar;
    GreedyPrefix(db, sofar + more, |sofar|, limit);
  }

  /** The dispatch loop of one round: spend slack row by row. */
  method SpendSlack(tasks: map<TaskId, Task>, batch: seq<Candidate>, claimed0: seq<TaskId>, limit: nat,
                    slack0: map<TenantId, int>, known: set<TenantId>, ghost db: Db, ghost sofar: seq<Candidate>)
    returns (claimed: seq<TaskId>, slack: map<TenantId, int>)
    requires tasks == db.tasks && Standing(db, sofar, limit, claimed0, known, slack0)
    requires forall r <- batch :: TenantOf(tasks, r.id) in known
    ensures Standing(db, sofar + batch, limit, claimed, known, slack)
  {
    claimed, slack := claimed0, slack0;
    assert sofar + batch[..0] == sofar && batch[..|batch|] == batch;
    for i := 0 to |batch|
      invariant Standing(db, sofar + batch[..i], limit, claimed, known, slack)
    {
      SpendStep(db, sofar, batch, i, limit, claimed, known, slack);
      var tenant := TenantOf(tasks, batch[i].id);
      if |claimed| >= limit {
        return;
      }
      var remaining := Left(slack, tenant);
      if remaining <= 0 {
        continue;
      }
      slack := slack[tenant := remaining - 1];
      claimed := claimed + [batch[i].id];
    }
  }

  /** max_concurrent_tasks minus the RUNNING count, for the tenants of a batch not looked up before: what
      is left to tenants known already does not move, and every new one starts with its whole slack. */
  method LookUpSlack(conn: Connection, slack: map<TenantId, int>, unknown: set<TenantId>)
    returns (slack': map<TenantId, int>)
    requires slack.Keys !! unknown
    ensures forall t | t !in unknown :: Left(slack', t) == Left(slack, t)
    ensures forall t <- unknown :: Left(slack', t) == Slack(conn.Snapshot(), t)
    ensures slack'.Keys <= slack.Keys + unknown
  {
    var db := conn.Snapshot();
    slack' := slack + map t | t in unknown && t in conn.tenants :: Slack(db, t);
  }

  lemma SlackLookedUp(db: Db, slack: map<TenantId, int>, slack': map<TenantId, int>, known: set<TenantId>, unknown: set<TenantId>,
                      claimed: seq<TaskId>)
    requires SlackLeft(db, slack, known, claimed) && unknown !! known && slack'.Keys <= slack.Keys + unknown
    requires forall t | t !in unknown :: Left(slack', t) == Left(slack, t)
    requires forall t <- unknown :: Left(slack', t) == Slack(db, t) && CountOf(db.tasks, claimed, t) == 0
    ensures SlackLeft(db, slack', known + unknown, claimed)
  {}

  lemma {:induction false} CountOfStrangers(db: Db, rows: seq<Candidate>, limit: nat, known: set<TenantId>, tenant: TenantId)
    requires forall r <- rows :: TenantOf(db.tasks, r.id) in known
    requires tenant !in known
    ensures CountOf(db.tasks, Greedy(db, rows, limit), tenant) == 0
  {
    if rows == [] {
    } else {
      var front := rows[..|rows| - 1];
      CountOfStrangers(db, front, limit, known, tenant);
      CountSnoc(db.tasks, Greedy(db, front, limit), rows[|rows| - 1].id, tenant);
      assert rows[|rows| - 1] in rows;
    }
  }

  /** The local variables of `claim_tasks`. */
  datatype Tally = Tally(
    claimed: seq<TaskId>, seen: set<TaskId>, known: set<TenantId>, slack: map<TenantId, int>)

  ghost predicate SeenSoFar(db: Db, sofar: seq<Candidate>, limit: nat, t: Tally) {
    && Standing(db, sofar, limit, t.claimed, t.known, t.slack)
    && t.seen == IdsOf(sofar)
    && forall r <- sofar :: TenantOf(db.tasks, r.id) in t.known
  }

  /** One round after its batch arrived. */
  method RunRound(conn: Connection, batch: seq<Candidate>, limit: nat, before: Tally, ghost sofar: seq<Candidate>)
    returns (after: Tally)
    requires SeenSoFar(conn.Snapshot(), sofar, limit, before)
    requires forall r <- batch :: r.id in conn.tasks
    ensures SeenSoFar(conn.Snapshot(), sofar + batch, limit, after)
  {
    ghost var db := conn.Snapshot();
    var seen := before.seen + IdsOf(batch);
    assert IdsOf(sofar + batch) == IdsOf(sofar) + IdsOf(batch);
    var tasks := conn.tasks;
    var unknown := (set r | r in batch && r.id in tasks :: tasks[r.id].tenant) - before.known;
    forall t | t in unknown { CountOfStrangers(db, sofar, limit, before.known, t); }
    var slack := LookUpSlack(conn, before.slack, unknown);
    SlackLookedUp(db, before.slack, slack, before.known, unknown, before.claimed);
    var known := before.known + unknown;
    var claimed;
    claimed, slack := SpendSlack(tasks, batch, before.claimed, limit, slack, known, db, sofar);
    after := Tally(claimed, seen, known, slack);
  }

  lemma BatchIsSlice(db: Db, caps: seq<string>, locked: set<TaskId>, rows: seq<Candidate>, sofar: seq<Candidate>, n: nat, need: nat)
    requires rows == Order(EligibleRows(db, caps, locked)) && n <= |rows| && sofar == rows[..n]
    ensures var batch := Best(need, EligibleRows(db, caps, locked + IdsOf(sofar)));
            batch == Cut(need, rows[n..]) && forall r <- batch :: r.id in db.tasks
  {
    NextBatch(db, caps, locked, IdsOf(sofar), n, need);
    SliceKnown(db, caps, locked, n, need);
  }

  lemma SeenStep(db: Db, rows: seq<Candidate>, limit: nat, round: nat)
    ensures var n := Seen(db, rows, limit, round);
            Seen(db, rows, limit, round + 1) == Min(n + (limit - |Greedy(db, rows[..n], limit)|), |rows|)
  {}

  lemma NextSlice(rows: seq<Candidate>, n: nat, need: nat)
    requires n <= |rows|
    ensures rows[..Min(n + need, |rows|)] == rows[..n] + Cut(need, rows[n..])
    ensures Cut(need, rows[n..]) == [] ==> Min(n + need, |rows|) == n
  {}

  lemma SliceKnown(db: Db, caps: seq<string>, locked: set<TaskId>, n: nat, need: nat)
    requires n <= |Order(EligibleRows(db, caps, locked))|
    ensures forall r <- Cut(need, Order(EligibleRows(db, caps, locked))[n..]) :: r.id in db.tasks
  {
    OrderedRows(db, caps, locked);
  }

  /** The rows of one claim call, in the order they are offered: each eligible row once, best first. */
  ghost predicate Offered(db: Db, caps: seq<string>, locked: set<TaskId>, rows: seq<Candidate>) {
    Increasing(rows, Before) && forall r :: r in rows <==> r in EligibleRows(db, caps, locked)
  }

  lemma OfferedInOrder(db: Db, caps: seq<string>, locked: set<TaskId>, rows: seq<Candidate>)
    ensures Offered(db, caps, locked, rows) <==> rows == Order(EligibleRows(db, caps, locked))
  {
    OrderFacts(EligibleRows(db, caps, locked));
    forall r ensures r in Order(EligibleRows(db, caps, locked)) <==> r in EligibleRows(db, caps, locked) {
      assert r in Elements(Order(EligibleRows(db, caps, locked))) <==> r in EligibleRows(db, caps, locked);
    }
    if Offered(db, caps, locked, rows) {
      assert Elements(rows) == EligibleRows(db, caps, locked);
      BeforeIsTotalOrder();
      IncreasingIsAscending(rows, Before);
    }
  }

  /** Where the scan of those rows stands after some rounds. */
  ghost predicate AfterRounds(db: Db, rows: seq<Candidate>, limit: nat, round: nat, sofar: seq<Candidate>) {
    sofar == rows[..Seen(db, rows, limit, round)]
  }

  lemma RoundDone(db: Db, rows: seq<Candidate>, limit: nat, round: nat, sofar: seq<Candidate>, batch: seq<Candidate>)
    requires AfterRounds(db, rows, limit, round, sofar)
    requires batch == Cut(limit - |Greedy(db, sofar, limit)|, rows[|sofar|..])
    ensures AfterRounds(db, rows, limit, round + 1, sofar + batch)
  {
    SeenStep(db, rows, limit, round);
    NextSlice(rows, |sofar|, limit - |Greedy(db, sofar, limit)|);
  }

  /** A round that sees nothing is as good as all that were left. */
  lemma EmptyRound(db: Db, rows: seq<Candidate>, limit: nat, round: nat, maxRounds: nat, sofar: seq<Candidate>)
    requires AfterRounds(db, rows, limit, round, sofar) && round <= maxRounds
    requires Cut(limit - |Greedy(db, sofar, limit)|, rows[|sofar|..]) == []
    ensures AfterRounds(db, rows, limit, maxRounds, sofar)
  {
    SeenStep(db, rows, limit, round);
    NextSlice(rows, |sofar|, limit - |Greedy(db, sofar, limit)|);
    SeenStays(db, rows, limit, round, maxRounds);
  }

  lemma ScanIsPrefix(db: Db, rows: seq<Candidate>, limit: nat, round: nat, sofar: seq<Candidate>)
    requires AfterRounds(db, rows, limit, round, sofar)
    ensures |sofar| <= |rows| && sofar == rows[..|sofar|]
  {}

  /** The query of one round, and what it means for the scan. */
  method NextRows(conn: Connection, caps: seq<string>, need: nat, locked: set<TaskId>, seen: set<TaskId>, ghost db: Db,
                  ghost rows: seq<Candidate>, ghost n: nat)
    returns (batch: seq<Candidate>)
    requires db == conn.Snapshot() && Offered(db, caps, locked, rows) && n <= |rows| && seen == IdsOf(rows[..n])
    ensures batch == Cut(need, rows[n..]) && forall r <- batch :: r.id in db.tasks
  {
    batch := FetchCandidates(conn, caps, need, locked + seen);
    OfferedInOrder(db, caps, locked, rows);
    BatchIsSlice(db, caps, locked, rows, rows[..n], n, need);
  }

  /** The scan and its tally: after `round` rounds, or after all of them once a round has seen nothing. */
  ghost predicate ScanAt(db: Db, rows: seq<Candidate>, limit: nat, maxRounds: nat, round: nat, more: bool,
                         sofar: seq<Candidate>, t: Tally)
  {
    AfterRounds(db, rows, limit, if more then round else maxRounds, sofar) && SeenSoFar(db, sofar, limit, t)
  }

  /** One iteration: stop when the query is empty, else spend the batch. */
  method OneRound(conn: Connection, caps: seq<string>, limit: nat, locked: set<TaskId>, before: Tally, ghost maxRounds: nat,
                  ghost db: Db, ghost rows: seq<Candidate>, ghost round: nat, ghost sofar0: seq<Candidate>)
    returns (after: Tally, more: bool, ghost sofar: seq<Candidate>)
    requires db == conn.Snapshot() && Offered(db, caps, locked, rows) && round < maxRounds
    requires ScanAt(db, rows, limit, maxRounds, round, true, sofar0, before)
    ensures ScanAt(db, rows, limit, maxRounds, round + 1, more, sofar, after)
  {
    ScanIsPrefix(db, rows, limit, round, sofar0);
    var batch := NextRows(conn, caps, limit - |before.claimed|, locked, before.seen, db, rows, |sofar0|);
    RoundDone(db, rows, limit, round, sofar0, batch);
    if batch == [] {
      EmptyRound(db, rows, limit, round, maxRounds, sofar0);
      return before, false, sofar0;
    }
    sofar := sofar0 + batch;
    more := true;
    after := RunRound(conn, batch, limit, before, sofar0);
  }

  /** The rounds of `claim_tasks`, over the rows as they are offered. */
  method ScanRounds(conn: Connection, caps: seq<string>, limit: nat, locked: set<TaskId>, maxRounds: nat, ghost db: Db,
                    ghost rows: seq<Candidate>)
    returns (claimed: seq<TaskId>)
    requires db == conn.Snapshot() && Offered(db, caps, locked, rows)
    ensures claimed == Greedy(db, rows[..Seen(db, rows, limit, maxRounds)], limit)
  {
    ghost var sofar: seq<Candidate> := [];
    var t, more := Tally([], {}, {}, map[]), true;
    ScanStarts(db, rows, limit, maxRounds);
    var round := 0;
    while round < maxRounds && |t.claimed| < limit && more
      invariant 0 <= round <= maxRounds
      invariant ScanAt(db, rows, limit, maxRounds, round, more, sofar, t)
      decreases maxRounds - round
    {
      t, more, sofar := OneRound(conn, caps, limit, locked, t, maxRounds, db, rows, round, sofar);
      round := round + 1;
    }
    ScanEnds(db, rows, limit, maxRounds, round, more, sofar, t);
    claimed := t.claimed;
  }

  /** The rounds of `claim_tasks`, up to the list of ids to grant. */
  method RunRounds(conn: Connection, caps: seq<string>, limit: nat, locked: set<TaskId>, maxRounds: nat)
    returns (claimed: seq<TaskId>)
    ensures claimed == ClaimWithin(conn.Snapshot(), caps, limit, locked, maxRounds)
  {
    ghost var db := conn.Snapshot();
    ghost var rows := Order(EligibleRows(db, caps, locked));
    OfferedInOrder(db, caps, locked, rows);
    claimed := ScanRounds(conn, caps, limit, locked, maxRounds, db, rows);
  }

  lemma ScanStarts(db: Db, rows: seq<Candidate>, limit: nat, maxRounds: nat)
    ensures ScanAt(db, rows, limit, maxRounds, 0, true, [], Tally([], {}, {}, map[]))
  {}

  /** What the loop has when it ends: at the limit, out of rounds, or out of rows. */
  lemma ScanEnds(db: Db, rows: seq<Candidate>, limit: nat, maxRounds: nat, round: nat, more: bool, sofar: seq<Candidate>, t: Tally)
    requires ScanAt(db, rows, limit, maxRounds, round, more, sofar, t) && round <= maxRounds
    requires round == maxRounds || |t.claimed| >= limit || !more
    ensures t.claimed == Greedy(db, rows[..Seen(db, rows, limit, maxRounds)], limit)
  {
    if more && round < maxRounds { EmptyRound(db, rows, limit, round, maxRounds, sofar); }
  }
}
